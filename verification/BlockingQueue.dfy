/** The whole multi-producer queue with the blocking wait strategy: every wait that finds a
    sequence behind takes the mutex, scans again and sleeps, and every publisher and
    consumer notifies the sleepers after its stores.  It cannot deadlock, lose a wakeup or
    run forever, whatever the schedule. */
module BlockingQueue {
  import opened Slots
  import opened Sums
  import opened Protocol
  import opened Invariant
  import opened Preservation
  import opened Safety
  import opened Progress
  import opened Completion
  import opened Conservation

  /** Awake: outside the wait strategy.  Locking: waiting for the mutex, to scan.  Inside,
      Missed, Leaving: holding it, scanning, having found a sequence behind, and having
      found none.  Asleep: on the condition variable.  Stored, Notifying, Notified: in
      `signal_all_when_blocking`, waiting for the mutex, and holding it before and after
      `notify_all`. */
  datatype Mode = Awake | Locking | Inside | Missed | Asleep | Leaving | Stored | Notifying | Notified

  datatype System = System(s: State, mutex: Option<Thread>, modes: seq<Mode>)

  /** Go: a step of the protocol.  Own: a step within the wait strategy.  Wake: a spurious
      wakeup. */
  datatype Move = Go(l: Label) | Own(t: Thread) | Wake(t: Thread)

  predicate Whole(cfg: Config, b: System) {
    Shape(cfg, b.s) && |b.modes| == |cfg.script| + |cfg.deps|
  }

  function ModeOf(cfg: Config, b: System, t: Thread): Mode
    requires Whole(cfg, b) && IsThread(cfg, t)
  {
    b.modes[Index(cfg, t)]
  }

  /** In a wait, between two loads. */
  predicate InWait(cfg: Config, s: State, t: Thread)
    requires Shape(cfg, s) && IsThread(cfg, t)
  {
    match t
    case Prod(p) => s.ppc[p].PWait?
    case Cons(c) => s.cpc[c].CSpin? || s.cpc[c].CWait?
  }

  /** The step after which `signal_all_when_blocking` is called. */
  predicate Signals(s: State, l: Label) {
    match l
    case Producer(p, _) => p < |s.ppc| && s.ppc[p].PPublish? && s.ppc[p].k == s.ppc[p].count
    case Consumer(c) => c < |s.cpc| && s.cpc[c].CRelease?
    case _ => false
  }

  /** A store within `publish`, which is followed by that call. */
  predicate Stores(s: State, l: Label) {
    l.Producer? && l.p < |s.ppc| && s.ppc[l.p].PPublish? && s.ppc[l.p].k < s.ppc[l.p].count
  }

  predicate MayGo(cfg: Config, b: System, l: Label)
    requires Whole(cfg, b)
  {
    && IsThread(cfg, ThreadOf(l)) && ModeOf(cfg, b, ThreadOf(l)).Awake?
    && !l.Try? && !Spurious(l) && Step(Ideal, cfg, b.s, l).Some? && Polite(cfg, b.s, l)
  }

  function AfterGo(cfg: Config, b: System, l: Label): (r: System)
    requires Whole(cfg, b) && MayGo(cfg, b, l)
    ensures Whole(cfg, r)
  {
    var mode := if Misses(cfg, b.s, l) then Locking else if Signals(b.s, l) then Stored else Awake;
    b.(s := Step(Ideal, cfg, b.s, l).value, modes := b.modes[Index(cfg, ThreadOf(l)) := mode])
  }

  function Set(cfg: Config, b: System, t: Thread, mode: Mode, mutex: Option<Thread>): (r: System)
    requires Whole(cfg, b) && IsThread(cfg, t)
    ensures Whole(cfg, r)
  {
    b.(modes := b.modes[Index(cfg, t) := mode], mutex := mutex)
  }

  function WakeAll(modes: seq<Mode>): (r: seq<Mode>)
    ensures |r| == |modes|
  {
    seq(|modes|, i requires 0 <= i < |modes| => if modes[i].Asleep? then Locking else modes[i])
  }

  /** One load of the predicate, under the mutex. */
  function AfterScanning(cfg: Config, b: System, t: Thread): (r: Option<System>)
    requires Whole(cfg, b) && IsThread(cfg, t)
    ensures r.Some? ==> Whole(cfg, r.value)
  {
    var l := NextStep(b.s, t);
    match Step(Ideal, cfg, b.s, l)
    case None => None
    case Some(s) =>
      var mode := if Misses(cfg, b.s, l) then Missed else if InWait(cfg, s, t) then Inside else Leaving;
      Some(Set(cfg, b, t, mode, b.mutex).(s := s))
  }

  function AfterOwn(cfg: Config, b: System, t: Thread): (r: Option<System>)
    requires Whole(cfg, b) && IsThread(cfg, t)
    ensures r.Some? ==> Whole(cfg, r.value)
  {
    match ModeOf(cfg, b, t)
    case Awake => None
    case Asleep => None
    case Locking => if b.mutex.None? then Some(Set(cfg, b, t, Inside, Some(t))) else None
    case Inside => AfterScanning(cfg, b, t)
    case Missed => Some(Set(cfg, b, t, Asleep, None))
    case Leaving => Some(Set(cfg, b, t, Awake, None))
    case Stored => if b.mutex.None? then Some(Set(cfg, b, t, Notifying, Some(t))) else None
    case Notifying => Some(Set(cfg, b.(modes := WakeAll(b.modes)), t, Notified, b.mutex))
    case Notified => Some(Set(cfg, b, t, Awake, None))
  }

  function Next(cfg: Config, b: System, m: Move): (r: Option<System>)
    requires Whole(cfg, b)
    ensures r.Some? ==> Whole(cfg, r.value)
  {
    match m
    case Go(l) => if MayGo(cfg, b, l) then Some(AfterGo(cfg, b, l)) else None
    case Own(t) => if IsThread(cfg, t) then AfterOwn(cfg, b, t) else None
    case Wake(t) =>
      if IsThread(cfg, t) && ModeOf(cfg, b, t).Asleep? then Some(Set(cfg, b, t, Locking, b.mutex)) else None
  }

  function Start(cfg: Config): (b: System)
    requires cfg.Shape()
    ensures Whole(cfg, b)
  {
    System(Init(Ideal, cfg), None, seq(|cfg.script| + |cfg.deps|, _ => Awake))
  }

  function Moves(cfg: Config, ms: seq<Move>): (r: Option<System>)
    requires cfg.Shape()
    ensures r.Some? ==> Whole(cfg, r.value)
  {
    if ms == [] then Some(Start(cfg))
    else match Moves(cfg, ms[..|ms| - 1])
      case None => None
      case Some(b) => Next(cfg, b, ms[|ms| - 1])
  }

  // ------------------------------------------------------------------
  // The invariant.
  // ------------------------------------------------------------------

  predicate HasMutex(mode: Mode) { mode.Inside? || mode.Missed? || mode.Leaving? || mode.Notifying? || mode.Notified? }

  /** t has stored something and is still to notify the sleepers. */
  predicate Pending(cfg: Config, b: System, t: Thread)
    requires Whole(cfg, b) && IsThread(cfg, t)
  {
    ModeOf(cfg, b, t).Stored? || ModeOf(cfg, b, t).Notifying?
      || (t.Prod? && b.s.ppc[t.p].PPublish? && b.s.ppc[t.p].k > 0)
  }

  ghost predicate SomePending(cfg: Config, b: System)
    requires Whole(cfg, b)
  {
    exists t: Thread :: IsThread(cfg, t) && Pending(cfg, b, t)
  }

  ghost predicate ModeOk(cfg: Config, b: System, t: Thread)
    requires Whole(cfg, b) && IsThread(cfg, t)
  {
    match ModeOf(cfg, b, t)
    case Locking => InWait(cfg, b.s, t)
    case Inside => InWait(cfg, b.s, t)
    case Missed => InWait(cfg, b.s, t) && (Ready(cfg, b.s, t) ==> SomePending(cfg, b))
    case Asleep => InWait(cfg, b.s, t) && (Ready(cfg, b.s, t) ==> SomePending(cfg, b))
    case _ => t.Cons? ==> !b.s.cpc[t.c].CSpin?
  }

  ghost predicate MutexOk(cfg: Config, b: System)
    requires Whole(cfg, b)
  {
    && (b.mutex.Some? ==> IsThread(cfg, b.mutex.value))
    && forall t: Thread :: IsThread(cfg, t) ==> (HasMutex(ModeOf(cfg, b, t)) <==> b.mutex == Some(t))
  }

  ghost predicate SystemInv(cfg: Config, b: System) {
    && Whole(cfg, b) && Inv(cfg, b.s) && KeepsLimits(cfg, b.s) && MutexOk(cfg, b)
    && (forall p: nat :: p < |b.s.ppc| ==> !Trying(b.s.ppc[p]))
    && forall t: Thread :: IsThread(cfg, t) ==> ModeOk(cfg, b, t)
  }

  /** A wait that has not come about does so only by a store. */
  lemma OnlyStoresHelp(cfg: Config, s: State, l: Label, t: Thread)
    requires Inv(cfg, s) && IsThread(cfg, t) && InWait(cfg, s, t) && !Ready(cfg, s, t) && ThreadOf(l) != t
    requires Step(Ideal, cfg, s, l).Some? && Ready(cfg, Step(Ideal, cfg, s, l).value, t)
    ensures Stores(s, l) || Signals(s, l)
  {
    OthersStayInWait(cfg, s, l, t);
    if !Stores(s, l) && !Signals(s, l) {
      NothingStored(cfg, s, l);
    }
  }

  lemma NothingStored(cfg: Config, s: State, l: Label)
    requires Shape(cfg, s) && Step(Ideal, cfg, s, l).Some? && !Stores(s, l) && !Signals(s, l)
    ensures Step(Ideal, cfg, s, l).value.barrier == s.barrier && Step(Ideal, cfg, s, l).value.pub == s.pub
  {
    assert l.Producer? ==> PcOk(cfg, l.p, s.sent[l.p], s.ppc[l.p]);
  }

  lemma OthersStayInWait(cfg: Config, s: State, l: Label, t: Thread)
    requires Shape(cfg, s) && IsThread(cfg, t) && ThreadOf(l) != t && Step(Ideal, cfg, s, l).Some?
    ensures var s' := Step(Ideal, cfg, s, l).value;
            && InWait(cfg, s', t) == InWait(cfg, s, t)
            && (t.Cons? ==> s'.cpc[t.c] == s.cpc[t.c]) && (t.Prod? ==> s'.ppc[t.p] == s.ppc[t.p])
  {
  }

  lemma MissedIsNotReady(cfg: Config, s: State, t: Thread)
    requires Inv(cfg, s) && IsThread(cfg, t) && InWait(cfg, s, t) && Misses(cfg, s, NextStep(s, t))
    ensures !Ready(cfg, s, t)
  {
    match t
    case Prod(p) => assert PcOk(cfg, p, s.sent[p], s.ppc[p]) && ScanOk(cfg, s.next, s.barrier, s.ppc[p]);
    case Cons(c) => assert CpcOk(cfg, c, s.cpc[c]) && ConsOk(cfg, s.owner, s.sent, s.barrier, c, s.pos[c], s.cpc[c]);
  }

  /** A scan's load leaves its thread waiting or not, and no one else any readier. */
  lemma ScanningStep(cfg: Config, s: State, t: Thread)
    requires Inv(cfg, s) && IsThread(cfg, t) && InWait(cfg, s, t)
    ensures Step(Ideal, cfg, s, NextStep(s, t)).Some? && ThreadOf(NextStep(s, t)) == t
    ensures var s' := Step(Ideal, cfg, s, NextStep(s, t)).value;
            && s' == s.(ppc := s'.ppc, cpc := s'.cpc)
            && (Misses(cfg, s, NextStep(s, t)) ==> InWait(cfg, s', t) && Ready(cfg, s', t) == Ready(cfg, s, t))
            && (!InWait(cfg, s', t) && t.Cons? ==> !s'.cpc[t.c].CSpin?)
  {
    match t
    case Prod(p) => assert PcOk(cfg, p, s.sent[p], s.ppc[p]) && ScanOk(cfg, s.next, s.barrier, s.ppc[p]);
    case Cons(c) => assert CpcOk(cfg, c, s.cpc[c]) && ConsOk(cfg, s.owner, s.sent, s.barrier, c, s.pos[c], s.cpc[c]);
  }

  lemma GoingStep(cfg: Config, b: System, l: Label)
    requires SystemInv(cfg, b) && MayGo(cfg, b, l)
    ensures var t, s' := ThreadOf(l), Step(Ideal, cfg, b.s, l).value;
            && (Misses(cfg, b.s, l) ==> InWait(cfg, s', t))
            && (!Misses(cfg, b.s, l) && t.Cons? ==> !s'.cpc[t.c].CSpin?)
            && forall p: nat :: p < |s'.ppc| ==> !Trying(s'.ppc[p])
  {
    var t := ThreadOf(l);
    assert ModeOk(cfg, b, t);
    NoneTries(cfg, b.s, l);
    WhereItGoes(cfg, b.s, l);
  }

  lemma WhereItGoes(cfg: Config, s: State, l: Label)
    requires Shape(cfg, s) && Step(Ideal, cfg, s, l).Some? && IsThread(cfg, ThreadOf(l))
    ensures var t, s' := ThreadOf(l), Step(Ideal, cfg, s, l).value;
            && (Misses(cfg, s, l) ==> InWait(cfg, s', t))
            && (!Misses(cfg, s, l) && t.Cons? ==> !s'.cpc[t.c].CSpin?)
  {
    match l
    case Producer(p, _) => assert PcOk(cfg, p, s.sent[p], s.ppc[p]);
    case Consumer(c) => assert CpcOk(cfg, c, s.cpc[c]);
    case _ =>
  }

  lemma PendingStays(cfg: Config, b: System, l: Label, u: Thread)
    requires Whole(cfg, b) && MayGo(cfg, b, l) && IsThread(cfg, u) && Pending(cfg, b, u)
    ensures Pending(cfg, AfterGo(cfg, b, l), u)
  {
    if u != ThreadOf(l) {
      OthersStayInWait(cfg, b.s, l, u);
    } else {
      assert PcOk(cfg, u.p, b.s.sent[u.p], b.s.ppc[u.p]);
    }
  }

  lemma StoresArePending(cfg: Config, b: System, l: Label)
    requires Whole(cfg, b) && MayGo(cfg, b, l)
    requires Stores(b.s, l) || Signals(b.s, l)
    ensures Pending(cfg, AfterGo(cfg, b, l), ThreadOf(l))
  {
    match l
    case Producer(p, _) => assert PcOk(cfg, p, b.s.sent[p], b.s.ppc[p]);
    case Consumer(c) => assert CpcOk(cfg, c, b.s.cpc[c]);
  }

  lemma GoKeepsMode(cfg: Config, b: System, l: Label, t: Thread)
    requires SystemInv(cfg, b) && MayGo(cfg, b, l) && IsThread(cfg, t) && t != ThreadOf(l)
    ensures ModeOk(cfg, AfterGo(cfg, b, l), t)
  {
    var b' := AfterGo(cfg, b, l);
    assert ModeOk(cfg, b, t);
    OthersStayInWait(cfg, b.s, l, t);
    if (ModeOf(cfg, b, t).Asleep? || ModeOf(cfg, b, t).Missed?) && Ready(cfg, b'.s, t) {
      if Ready(cfg, b.s, t) {
        var u: Thread :| IsThread(cfg, u) && Pending(cfg, b, u);
        PendingStays(cfg, b, l, u);
      } else {
        OnlyStoresHelp(cfg, b.s, l, t);
        StoresArePending(cfg, b, l);
      }
    }
  }

  lemma GoInv(cfg: Config, b: System, l: Label)
    requires SystemInv(cfg, b) && MayGo(cfg, b, l)
    ensures SystemInv(cfg, AfterGo(cfg, b, l))
  {
    var b' := AfterGo(cfg, b, l);
    StepInv(cfg, b.s, l);
    StepKeepsLimits(cfg, b.s, l);
    GoingStep(cfg, b, l);
    forall t: Thread | IsThread(cfg, t)
      ensures ModeOk(cfg, b', t)
    {
      if t != ThreadOf(l) {
        GoKeepsMode(cfg, b, l, t);
      }
    }
    GoKeepsMutex(cfg, b, l);
  }

  lemma GoKeepsMutex(cfg: Config, b: System, l: Label)
    requires Whole(cfg, b) && MutexOk(cfg, b) && MayGo(cfg, b, l)
    ensures MutexOk(cfg, AfterGo(cfg, b, l))
  {
    SameIndex(cfg);
  }

  lemma SameIndex(cfg: Config)
    ensures forall t: Thread, u: Thread :: IsThread(cfg, t) && IsThread(cfg, u) && Index(cfg, t) == Index(cfg, u) ==>
              t == u
  {
  }

  // A move of the strategy that changes only modes and the mutex.
  lemma SetKeepsMutex(cfg: Config, b: System, t: Thread, mode: Mode, mutex: Option<Thread>)
    requires Whole(cfg, b) && MutexOk(cfg, b) && IsThread(cfg, t)
    requires b.mutex == None || b.mutex == Some(t)
    requires mutex == if HasMutex(mode) then Some(t) else None
    ensures MutexOk(cfg, Set(cfg, b, t, mode, mutex))
  {
    SameIndex(cfg);
  }

  /** t's own mode changes, and stays pending if it was. */
  lemma SetInv(cfg: Config, b: System, t: Thread, mode: Mode, mutex: Option<Thread>)
    requires SystemInv(cfg, b) && IsThread(cfg, t) && ModeOk(cfg, Set(cfg, b, t, mode, mutex), t)
    requires MutexOk(cfg, Set(cfg, b, t, mode, mutex))
    requires Pending(cfg, b, t) ==> Pending(cfg, Set(cfg, b, t, mode, mutex), t)
    ensures SystemInv(cfg, Set(cfg, b, t, mode, mutex))
  {
    var b' := Set(cfg, b, t, mode, mutex);
    SameIndex(cfg);
    forall u: Thread | IsThread(cfg, u)
      ensures ModeOk(cfg, b', u)
    {
      assert ModeOk(cfg, b, u);
      if SomePending(cfg, b) {
        var v: Thread :| IsThread(cfg, v) && Pending(cfg, b, v);
        assert Pending(cfg, b', v);
      }
    }
  }

  lemma FallAsleep(cfg: Config, b: System, t: Thread)
    requires SystemInv(cfg, b) && IsThread(cfg, t) && ModeOf(cfg, b, t).Missed?
    ensures SystemInv(cfg, Set(cfg, b, t, Asleep, None))
  {
    var b' := Set(cfg, b, t, Asleep, None);
    SameIndex(cfg);
    assert ModeOk(cfg, b, t);
    SetKeepsMutex(cfg, b, t, Asleep, None);
    if SomePending(cfg, b) {
      var v: Thread :| IsThread(cfg, v) && Pending(cfg, b, v);
      assert Pending(cfg, b', v);
    }
    SetInv(cfg, b, t, Asleep, None);
  }

  /** Notifying leaves nobody asleep, so nobody's wakeup is lost. */
  lemma NotifyInv(cfg: Config, b: System, t: Thread)
    requires SystemInv(cfg, b) && IsThread(cfg, t) && ModeOf(cfg, b, t).Notifying?
    ensures SystemInv(cfg, AfterOwn(cfg, b, t).value)
  {
    var b' := AfterOwn(cfg, b, t).value;
    SameIndex(cfg);
    forall u: Thread | IsThread(cfg, u)
      ensures ModeOk(cfg, b', u) && (HasMutex(ModeOf(cfg, b', u)) <==> HasMutex(ModeOf(cfg, b, u)))
    {
      assert ModeOk(cfg, b, u);
      assert ModeOf(cfg, b, u).Missed? ==> b.mutex == Some(u);
    }
  }

  lemma ScanningKeepsMode(cfg: Config, b: System, t: Thread, u: Thread)
    requires SystemInv(cfg, b) && IsThread(cfg, t) && ModeOf(cfg, b, t).Inside? && IsThread(cfg, u)
    requires AfterScanning(cfg, b, t).Some?
    ensures ModeOk(cfg, AfterScanning(cfg, b, t).value, u)
  {
    assert ModeOk(cfg, b, u) && ModeOk(cfg, b, t);
    ScanningStep(cfg, b.s, t);
    if u == t {
      if Misses(cfg, b.s, NextStep(b.s, t)) { MissedIsNotReady(cfg, b.s, t); }
    } else {
      SameIndex(cfg);
      OthersStayInWait(cfg, b.s, NextStep(b.s, t), u);
      if SomePending(cfg, b) { ScanningKeepsPending(cfg, b, t); }
    }
  }

  lemma ScanningKeepsPending(cfg: Config, b: System, t: Thread)
    requires SystemInv(cfg, b) && IsThread(cfg, t) && ModeOf(cfg, b, t).Inside? && SomePending(cfg, b)
    requires AfterScanning(cfg, b, t).Some?
    ensures SomePending(cfg, AfterScanning(cfg, b, t).value)
  {
    var v: Thread :| IsThread(cfg, v) && Pending(cfg, b, v);
    assert ModeOk(cfg, b, t);
    ScanningStep(cfg, b.s, t);
    SameIndex(cfg);
    OthersStayInWait(cfg, b.s, NextStep(b.s, t), v);
    assert Pending(cfg, AfterScanning(cfg, b, t).value, v);
  }

  lemma ScanningInv(cfg: Config, b: System, t: Thread)
    requires SystemInv(cfg, b) && IsThread(cfg, t) && ModeOf(cfg, b, t).Inside?
    ensures AfterScanning(cfg, b, t).Some? && SystemInv(cfg, AfterScanning(cfg, b, t).value)
  {
    assert ModeOk(cfg, b, t);
    ScanningStep(cfg, b.s, t);
    var l := NextStep(b.s, t);
    var b' := AfterScanning(cfg, b, t).value;
    StepInv(cfg, b.s, l);
    StepKeepsLimits(cfg, b.s, l);
    NoneTries(cfg, b.s, l);
    forall u: Thread | IsThread(cfg, u)
      ensures ModeOk(cfg, b', u)
    {
      ScanningKeepsMode(cfg, b, t, u);
    }
    var mode := ModeOf(cfg, b', t);
    SetKeepsMutex(cfg, b, t, mode, b.mutex);
    assert b' == Set(cfg, b, t, mode, b.mutex).(s := b'.s);
  }

  lemma NoneTries(cfg: Config, s: State, l: Label)
    requires Shape(cfg, s) && !l.Try? && Step(Ideal, cfg, s, l).Some?
    requires forall p: nat :: p < |s.ppc| ==> !Trying(s.ppc[p])
    ensures forall p: nat :: p < |s.ppc| ==> !Trying(Step(Ideal, cfg, s, l).value.ppc[p])
  {
    assert l.Producer? ==> PcOk(cfg, l.p, s.sent[l.p], s.ppc[l.p]);
  }

  lemma OwnInv(cfg: Config, b: System, t: Thread)
    requires SystemInv(cfg, b) && IsThread(cfg, t) && AfterOwn(cfg, b, t).Some?
    ensures SystemInv(cfg, AfterOwn(cfg, b, t).value)
  {
    assert ModeOk(cfg, b, t);
    SameIndex(cfg);
    match ModeOf(cfg, b, t)
    case Inside => ScanningInv(cfg, b, t);
    case Missed => FallAsleep(cfg, b, t);
    case Notifying => NotifyInv(cfg, b, t);
    case Locking =>
      SetKeepsMutex(cfg, b, t, Inside, Some(t));
      SetInv(cfg, b, t, Inside, Some(t));
    case Stored =>
      SetKeepsMutex(cfg, b, t, Notifying, Some(t));
      SetInv(cfg, b, t, Notifying, Some(t));
    case _ =>
      SetKeepsMutex(cfg, b, t, Awake, None);
      SetInv(cfg, b, t, Awake, None);
  }

  lemma MoveInv(cfg: Config, b: System, m: Move)
    requires SystemInv(cfg, b) && Next(cfg, b, m).Some?
    ensures SystemInv(cfg, Next(cfg, b, m).value)
  {
    match m
    case Go(l) => GoInv(cfg, b, l);
    case Own(t) => OwnInv(cfg, b, t);
    case Wake(t) =>
      assert ModeOk(cfg, b, t);
      SameIndex(cfg);
      WakeKeepsMutex(cfg, b, t);
      SetInv(cfg, b, t, Locking, b.mutex);
  }

  lemma WakeKeepsMutex(cfg: Config, b: System, t: Thread)
    requires Whole(cfg, b) && MutexOk(cfg, b) && IsThread(cfg, t) && ModeOf(cfg, b, t).Asleep?
    ensures MutexOk(cfg, Set(cfg, b, t, Locking, b.mutex))
  {
    SameIndex(cfg);
  }

  ghost predicate Arrived(cfg: Config, ms: seq<Move>, b: System) {
    cfg.Valid() && Moves(cfg, ms) == Some(b)
  }

  lemma {:induction false} ArrivedInv(cfg: Config, ms: seq<Move>, b: System)
    requires Arrived(cfg, ms, b)
    ensures SystemInv(cfg, b)
  {
    if ms == [] {
      InitInv(cfg);
    } else {
      var before := Moves(cfg, ms[..|ms| - 1]).value;
      ArrivedInv(cfg, ms[..|ms| - 1], before);
      MoveInv(cfg, before, ms[|ms| - 1]);
    }
  }

  // ------------------------------------------------------------------
  // It is the same queue.
  // ------------------------------------------------------------------

  lemma MoveIsStep(cfg: Config, b: System, m: Move) returns (ls: seq<Label>)
    requires Whole(cfg, b) && Next(cfg, b, m).Some?
    ensures var s' := Next(cfg, b, m).value.s;
            if |ls| == 1 then Step(Ideal, cfg, b.s, ls[0]) == Some(s') && !ls[0].Try? else ls == [] && s' == b.s
  {
    ls := [];
    match m
    case Go(l) => ls := [l];
    case Own(t) => if ModeOf(cfg, b, t).Inside? { ls := [NextStep(b.s, t)]; }
    case Wake(t) =>
  }

  /** What is proved of the protocol's runs holds with the blocking strategy: each of its
      runs is one of them, with the steps of the strategy in between. */
  lemma {:induction false} BlockingRunsAreRuns(cfg: Config, ms: seq<Move>, b: System) returns (ls: seq<Label>)
    requires Arrived(cfg, ms, b)
    ensures Reached(cfg, ls, b.s) && forall l :: l in ls ==> !l.Try?
  {
    ls := [];
    if ms != [] {
      var before := Moves(cfg, ms[..|ms| - 1]).value;
      ls := BlockingRunsAreRuns(cfg, ms[..|ms| - 1], before);
      var more := MoveIsStep(cfg, before, ms[|ms| - 1]);
      if |more| == 1 {
        RunAppend(cfg, ls, more[0]);
        ls := ls + [more[0]];
      }
    }
  }

  // ------------------------------------------------------------------
  // It cannot deadlock.
  // ------------------------------------------------------------------

  /** No lost wakeup: while someone sleeps whose wait has come about, someone else has
      stored and is still to notify. */
  lemma NoLostWakeup(cfg: Config, ms: seq<Move>, b: System, t: Thread) returns (u: Thread)
    requires Arrived(cfg, ms, b) && IsThread(cfg, t) && ModeOf(cfg, b, t).Asleep? && Ready(cfg, b.s, t)
    ensures IsThread(cfg, u) && Pending(cfg, b, u) && u != t
  {
    ArrivedInv(cfg, ms, b);
    assert ModeOk(cfg, b, t);
    u :| IsThread(cfg, u) && Pending(cfg, b, u);
  }

  lemma HolderCanMove(cfg: Config, b: System)
    requires SystemInv(cfg, b) && b.mutex.Some?
    ensures Next(cfg, b, Own(b.mutex.value)).Some?
  {
    var t := b.mutex.value;
    assert HasMutex(ModeOf(cfg, b, t)) && ModeOk(cfg, b, t);
    if ModeOf(cfg, b, t).Inside? {
      ScanningInv(cfg, b, t);
    }
  }

  lemma AwakeCanGo(cfg: Config, b: System, t: Thread)
    requires SystemInv(cfg, b) && IsThread(cfg, t) && ModeOf(cfg, b, t).Awake? && !Done(cfg, b.s, t)
    ensures Next(cfg, b, Go(NextStep(b.s, t))).Some?
  {
    UnfinishedCanStep(cfg, b.s, t);
  }

  predicate AllDone(cfg: Config, b: System)
    requires Whole(cfg, b)
  {
    Finished(cfg, b.s) && b.mutex.None? && forall i :: 0 <= i < |b.modes| ==> b.modes[i].Awake?
  }

  /** Until all is done, some thread can move without a spurious wakeup. */
  lemma SomeoneCanMove(cfg: Config, b: System) returns (m: Move)
    requires SystemInv(cfg, b) && Roomy(cfg) && !AllDone(cfg, b)
    ensures !m.Wake? && Next(cfg, b, m).Some?
  {
    if b.mutex.Some? {
      HolderCanMove(cfg, b);
      m := Own(b.mutex.value);
    } else if i: nat :| i < |b.modes| && !b.modes[i].Awake? && !b.modes[i].Asleep? {
      m := Own(ThreadAt(cfg, i));
      assert ModeOf(cfg, b, ThreadAt(cfg, i)) == b.modes[i];
    } else {
      m := AwakeOrAsleep(cfg, b);
    }
  }

  lemma FinishedIsDone(cfg: Config, b: System)
    requires SystemInv(cfg, b) && Finished(cfg, b.s) && b.mutex.None?
    requires forall i: nat :: i < |b.modes| ==> b.modes[i].Awake? || b.modes[i].Asleep?
    ensures AllDone(cfg, b)
  {
    forall i: nat | i < |b.modes|
      ensures b.modes[i].Awake?
    {
      var t := ThreadAt(cfg, i);
      assert ModeOk(cfg, b, t) && ModeOf(cfg, b, t) == b.modes[i];
      assert !InWait(cfg, b.s, t);
    }
  }

  lemma AwakeOrAsleep(cfg: Config, b: System) returns (m: Move)
    requires SystemInv(cfg, b) && Roomy(cfg) && !AllDone(cfg, b) && b.mutex.None?
    requires forall i: nat :: i < |b.modes| ==> b.modes[i].Awake? || b.modes[i].Asleep?
    ensures m.Go? && Next(cfg, b, m).Some?
  {
    if Finished(cfg, b.s) {
      FinishedIsDone(cfg, b);
      assert false;
    }
    var t := SomeThreadIsReady(cfg, b.s);
    assert ModeOk(cfg, b, t);
    if ModeOf(cfg, b, t).Asleep? {
      t :| IsThread(cfg, t) && Pending(cfg, b, t);
      assert ModeOk(cfg, b, t);
    }
    ReadyIsNotDone(cfg, b.s, t);
    AwakeCanGo(cfg, b, t);
    m := Go(NextStep(b.s, t));
  }

  lemma ReadyIsNotDone(cfg: Config, s: State, t: Thread)
    requires Shape(cfg, s) && IsThread(cfg, t)
    requires Ready(cfg, s, t) || (t.Prod? && s.ppc[t.p].PPublish?)
    ensures !Done(cfg, s, t)
  {
  }

  // ------------------------------------------------------------------
  // And it cannot run forever.
  // ------------------------------------------------------------------

  function Loads(cfg: Config, t: Thread): nat
    requires IsThread(cfg, t)
  {
    match t case Prod(_) => |cfg.gate| case Cons(c) => |cfg.deps[c]| + 1
  }

  function LoadsDone(cfg: Config, s: State, t: Thread): int
    requires Shape(cfg, s) && IsThread(cfg, t)
  {
    match t
    case Prod(p) => if s.ppc[p].PWait? then s.ppc[p].i else 0
    case Cons(c) => if s.cpc[c].CWait? then s.cpc[c].i else 0
  }

  /** The moves a woken thread makes before it sleeps again or gets on. */
  function WakeCosts(cfg: Config): seq<int>
    requires cfg.Shape()
  {
    seq(|cfg.script| + |cfg.deps|, i requires 0 <= i < |cfg.script| + |cfg.deps| => Loads(cfg, ThreadAt(cfg, i)) + 3)
  }

  /** The moves t makes before its next milestone, if nobody wakes it. */
  function Cost(cfg: Config, s: State, t: Thread, mode: Mode): int
    requires Shape(cfg, s) && IsThread(cfg, t)
  {
    var L, done, all := Loads(cfg, t), LoadsDone(cfg, s, t), Sum(WakeCosts(cfg));
    match mode
    case Awake => 2 * L + 4 - done
    case Locking => L + 3
    case Inside => L + 2 - done
    case Missed => 1
    case Asleep => 0
    case Leaving => 2 * L + 5
    case Stored => 2 * L + all + 7
    case Notifying => 2 * L + all + 6
    case Notified => 2 * L + 5
  }

  function Costs(cfg: Config, b: System): seq<int>
    requires Whole(cfg, b)
  {
    seq(|b.modes|, i requires 0 <= i < |b.modes| => Cost(cfg, b.s, ThreadAt(cfg, i), b.modes[i]))
  }

  function Weight(cfg: Config): int
    requires cfg.Shape()
  {
    3 * Sum(WakeCosts(cfg)) + 8
  }

  /** A bound on the moves left, spurious wakeups apart. */
  function MovesLeft(cfg: Config, b: System): int
    requires Whole(cfg, b)
  {
    Weight(cfg) * Work(cfg, b.s) + Sum(Costs(cfg, b))
  }

  lemma LoadsBounded(cfg: Config, t: Thread)
    requires cfg.Shape() && IsThread(cfg, t)
    ensures Loads(cfg, t) + 3 <= Sum(WakeCosts(cfg))
  {
    SumNonNegative(WakeCosts(cfg));
    assert WakeCosts(cfg)[Index(cfg, t)] == Loads(cfg, t) + 3;
  }

  lemma CostBounded(cfg: Config, s: State, t: Thread, mode: Mode)
    requires Shape(cfg, s) && IsThread(cfg, t)
    ensures 0 <= Cost(cfg, s, t, mode) < Weight(cfg) && 0 <= LoadsDone(cfg, s, t) < Loads(cfg, t)
  {
    LoadsBounded(cfg, t);
    match t
    case Prod(p) => assert PcOk(cfg, p, s.sent[p], s.ppc[p]);
    case Cons(c) => assert CpcOk(cfg, c, s.cpc[c]);
  }

  lemma MovesLeftBounded(cfg: Config, b: System)
    requires SystemInv(cfg, b)
    ensures MovesLeft(cfg, b) >= 0
  {
    forall i | 0 <= i < |b.modes|
      ensures Costs(cfg, b)[i] >= 0
    {
      CostBounded(cfg, b.s, ThreadAt(cfg, i), b.modes[i]);
    }
    SumNonNegative(Costs(cfg, b));
    WorkBounded(cfg, b.s);
    SumNonNegative(WakeCosts(cfg));
    MulNonNegative(Weight(cfg), Work(cfg, b.s));
  }

  /** Only t's cost changes. */
  lemma OneCost(cfg: Config, b: System, b': System, t: Thread)
    requires Whole(cfg, b) && Whole(cfg, b') && IsThread(cfg, t)
    requires b'.modes == b.modes[Index(cfg, t) := ModeOf(cfg, b', t)]
    requires forall u: Thread :: IsThread(cfg, u) && u != t ==> LoadsDone(cfg, b'.s, u) == LoadsDone(cfg, b.s, u)
    ensures Sum(Costs(cfg, b')) - Sum(Costs(cfg, b))
         == Cost(cfg, b'.s, t, ModeOf(cfg, b', t)) - Cost(cfg, b.s, t, ModeOf(cfg, b, t))
  {
    var i, c := Index(cfg, t), Cost(cfg, b'.s, t, ModeOf(cfg, b', t));
    SameIndex(cfg);
    forall j | 0 <= j < |b.modes|
      ensures Costs(cfg, b')[j] == Costs(cfg, b)[i := c][j]
    {
      assert j == i || ThreadAt(cfg, j) != t;
    }
    assert Costs(cfg, b') == Costs(cfg, b)[i := c];
    SumUpdate(Costs(cfg, b), i, c);
  }

  lemma OthersLoads(cfg: Config, s: State, l: Label)
    requires Shape(cfg, s) && Step(Ideal, cfg, s, l).Some? && IsThread(cfg, ThreadOf(l))
    ensures forall u: Thread :: IsThread(cfg, u) && u != ThreadOf(l) ==>
              LoadsDone(cfg, Step(Ideal, cfg, s, l).value, u) == LoadsDone(cfg, s, u)
  {
    forall u: Thread | IsThread(cfg, u) && u != ThreadOf(l)
      ensures LoadsDone(cfg, Step(Ideal, cfg, s, l).value, u) == LoadsDone(cfg, s, u)
    {
      OthersStayInWait(cfg, s, l, u);
    }
  }

  /** A step of the protocol reaches a milestone, misses, or loads the next sequence. */
  lemma StepKinds(cfg: Config, s: State, l: Label)
    requires Inv(cfg, s) && Step(Ideal, cfg, s, l).Some? && IsThread(cfg, ThreadOf(l)) && !l.Try?
             && !Milestone(cfg, s, l)
    requires forall p: nat :: p < |s.ppc| ==> !Trying(s.ppc[p])
    ensures var t, s' := ThreadOf(l), Step(Ideal, cfg, s, l).value;
            && (Misses(cfg, s, l) || LoadsDone(cfg, s', t) == LoadsDone(cfg, s, t) + 1) && InWait(cfg, s', t)
            && !Signals(s, l)
  {
    match l
    case Producer(p, _) => assert PcOk(cfg, p, s.sent[p], s.ppc[p]);
    case Consumer(c) => assert CpcOk(cfg, c, s.cpc[c]);
  }

  /** A milestone pays for whatever its thread does next. */
  lemma LessIsLeft(cfg: Config, b: System, b': System, t: Thread)
    requires Whole(cfg, b) && Whole(cfg, b') && IsThread(cfg, t)
    requires b'.modes == b.modes[Index(cfg, t) := ModeOf(cfg, b', t)]
    requires forall u: Thread :: IsThread(cfg, u) && u != t ==> LoadsDone(cfg, b'.s, u) == LoadsDone(cfg, b.s, u)
    requires Work(cfg, b'.s) < Work(cfg, b.s)
             || (Work(cfg, b'.s) == Work(cfg, b.s)
                 && Cost(cfg, b'.s, t, ModeOf(cfg, b', t)) < Cost(cfg, b.s, t, ModeOf(cfg, b, t)))
    ensures MovesLeft(cfg, b') < MovesLeft(cfg, b)
  {
    OneCost(cfg, b, b', t);
    CostBounded(cfg, b.s, t, ModeOf(cfg, b, t));
    CostBounded(cfg, b'.s, t, ModeOf(cfg, b', t));
    if Work(cfg, b'.s) < Work(cfg, b.s) {
      MulGap(Weight(cfg), Work(cfg, b'.s), Work(cfg, b.s));
    }
  }

  lemma GoWorks(cfg: Config, b: System, l: Label)
    requires SystemInv(cfg, b) && MayGo(cfg, b, l)
    ensures MovesLeft(cfg, AfterGo(cfg, b, l)) < MovesLeft(cfg, b)
  {
    var b', t := AfterGo(cfg, b, l), ThreadOf(l);
    StepWorks(cfg, b.s, l);
    OthersLoads(cfg, b.s, l);
    CostBounded(cfg, b.s, t, ModeOf(cfg, b, t));
    if !Milestone(cfg, b.s, l) { StepKinds(cfg, b.s, l); }
    LessIsLeft(cfg, b, b', t);
  }

  lemma ScanningWorks(cfg: Config, b: System, t: Thread)
    requires SystemInv(cfg, b) && IsThread(cfg, t) && ModeOf(cfg, b, t).Inside?
    ensures AfterScanning(cfg, b, t).Some? && MovesLeft(cfg, AfterScanning(cfg, b, t).value) < MovesLeft(cfg, b)
  {
    var l := NextStep(b.s, t);
    ScanStarts(cfg, b, t);
    var b' := AfterScanning(cfg, b, t).value;
    StepWorks(cfg, b.s, l);
    OthersLoads(cfg, b.s, l);
    ScanCost(cfg, b, t);
    LessIsLeft(cfg, b, b', t);
  }

  lemma ScanCost(cfg: Config, b: System, t: Thread)
    requires Whole(cfg, b) && Inv(cfg, b.s) && IsThread(cfg, t) && ModeOf(cfg, b, t).Inside?
    requires forall p: nat :: p < |b.s.ppc| ==> !Trying(b.s.ppc[p])
    requires AfterScanning(cfg, b, t).Some? && ThreadOf(NextStep(b.s, t)) == t && !NextStep(b.s, t).Try?
    ensures var b' := AfterScanning(cfg, b, t).value;
            Milestone(cfg, b.s, NextStep(b.s, t))
            || Cost(cfg, b'.s, t, ModeOf(cfg, b', t)) < Cost(cfg, b.s, t, ModeOf(cfg, b, t))
  {
    CostBounded(cfg, b.s, t, Inside);
    if !Milestone(cfg, b.s, NextStep(b.s, t)) { StepKinds(cfg, b.s, NextStep(b.s, t)); }
  }

  lemma ScanStarts(cfg: Config, b: System, t: Thread)
    requires SystemInv(cfg, b) && IsThread(cfg, t) && ModeOf(cfg, b, t).Inside?
    ensures AfterScanning(cfg, b, t).Some? && ThreadOf(NextStep(b.s, t)) == t && !NextStep(b.s, t).Try?
  {
    assert ModeOk(cfg, b, t);
    ScanningStep(cfg, b.s, t);
  }

  /** Waking everybody is paid for by the notification. */
  lemma NotifyWorks(cfg: Config, b: System, t: Thread)
    requires Whole(cfg, b) && IsThread(cfg, t) && ModeOf(cfg, b, t).Notifying?
    ensures MovesLeft(cfg, AfterOwn(cfg, b, t).value) < MovesLeft(cfg, b)
  {
    var woken := b.(modes := WakeAll(b.modes));
    var b' := Set(cfg, woken, t, Notified, b.mutex);
    assert AfterOwn(cfg, b, t) == Some(b');
    AllWoken(cfg, b);
    OneCost(cfg, woken, b', t);
    assert Cost(cfg, b.s, t, Notified) + Sum(WakeCosts(cfg)) < Cost(cfg, b.s, t, Notifying);
    SameWork(cfg, b, b');
  }

  lemma AllWoken(cfg: Config, b: System)
    requires Whole(cfg, b)
    ensures Whole(cfg, b.(modes := WakeAll(b.modes)))
    ensures Sum(Costs(cfg, b.(modes := WakeAll(b.modes)))) <= Sum(Costs(cfg, b)) + Sum(WakeCosts(cfg))
  {
    var woken := b.(modes := WakeAll(b.modes));
    forall i | 0 <= i < |b.modes|
      ensures Costs(cfg, woken)[i] <= Costs(cfg, b)[i] + WakeCosts(cfg)[i]
    {
      CostBounded(cfg, b.s, ThreadAt(cfg, i), b.modes[i]);
    }
    SumOfSums(Costs(cfg, woken), Costs(cfg, b), WakeCosts(cfg));
  }

  lemma SameWork(cfg: Config, b: System, b': System)
    requires Whole(cfg, b) && Whole(cfg, b') && b'.s == b.s
    ensures MovesLeft(cfg, b') - MovesLeft(cfg, b) == Sum(Costs(cfg, b')) - Sum(Costs(cfg, b))
  {
  }

  lemma OwnWorks(cfg: Config, b: System, t: Thread)
    requires SystemInv(cfg, b) && IsThread(cfg, t) && AfterOwn(cfg, b, t).Some?
    ensures MovesLeft(cfg, AfterOwn(cfg, b, t).value) < MovesLeft(cfg, b)
  {
    if ModeOf(cfg, b, t).Inside? {
      ScanningWorks(cfg, b, t);
    } else if ModeOf(cfg, b, t).Notifying? {
      NotifyWorks(cfg, b, t);
    } else {
      OwnCost(cfg, b, t);
      LessIsLeft(cfg, b, AfterOwn(cfg, b, t).value, t);
    }
  }

  lemma OwnCost(cfg: Config, b: System, t: Thread)
    requires Whole(cfg, b) && IsThread(cfg, t) && AfterOwn(cfg, b, t).Some?
    requires !ModeOf(cfg, b, t).Inside? && !ModeOf(cfg, b, t).Notifying?
    ensures var b' := AfterOwn(cfg, b, t).value;
            && b'.s == b.s && b'.modes == b.modes[Index(cfg, t) := ModeOf(cfg, b', t)]
            && Cost(cfg, b.s, t, ModeOf(cfg, b', t)) < Cost(cfg, b.s, t, ModeOf(cfg, b, t))
  {
    CostBounded(cfg, b.s, t, ModeOf(cfg, b, t));
    SumNonNegative(WakeCosts(cfg));
  }

  /** Every move but a spurious wakeup uses up one of the moves left. */
  lemma MoveWorks(cfg: Config, b: System, m: Move)
    requires SystemInv(cfg, b) && Next(cfg, b, m).Some?
    ensures var b' := Next(cfg, b, m).value;
            0 <= MovesLeft(cfg, b') && if m.Wake? then MovesLeft(cfg, b') <= MovesLeft(cfg, b) + Sum(WakeCosts(cfg))
                                       else MovesLeft(cfg, b') < MovesLeft(cfg, b)
  {
    MoveInv(cfg, b, m);
    MovesLeftBounded(cfg, Next(cfg, b, m).value);
    match m
    case Go(l) => GoWorks(cfg, b, l);
    case Own(t) => OwnWorks(cfg, b, t);
    case Wake(t) =>
      OneCost(cfg, b, Next(cfg, b, m).value, t);
      LoadsBounded(cfg, t);
  }

  function Wakeups(ms: seq<Move>): nat {
    if ms == [] then 0 else Wakeups(ms[..|ms| - 1]) + if ms[|ms| - 1].Wake? then 1 else 0
  }

  function WakeAllowance(cfg: Config, ms: seq<Move>): int
    requires cfg.Shape()
  {
    Wakeups(ms) * (Sum(WakeCosts(cfg)) + 1)
  }

  /** However the threads are scheduled, a run has at most so many moves, plus a fixed
      number for each spurious wakeup. */
  lemma {:induction false} MovesAreBounded(cfg: Config, ms: seq<Move>, b: System)
    requires Arrived(cfg, ms, b)
    ensures |ms| + MovesLeft(cfg, b) <= MovesLeft(cfg, Start(cfg)) + WakeAllowance(cfg, ms)
    ensures MovesLeft(cfg, b) >= 0
  {
    ArrivedInv(cfg, ms, b);
    MovesLeftBounded(cfg, b);
    if ms != [] {
      var before := Moves(cfg, ms[..|ms| - 1]).value;
      MovesAreBounded(cfg, ms[..|ms| - 1], before);
      LastMoveWorks(cfg, ms, before, b);
    }
  }

  lemma OneAllowance(cfg: Config, ms: seq<Move>)
    requires cfg.Shape() && ms != []
    ensures WakeAllowance(cfg, ms) - WakeAllowance(cfg, ms[..|ms| - 1])
         == if ms[|ms| - 1].Wake? then Sum(WakeCosts(cfg)) + 1 else 0
  {
    MulSuccessor(Wakeups(ms[..|ms| - 1]), Sum(WakeCosts(cfg)) + 1);
  }

  lemma LastMoveWorks(cfg: Config, ms: seq<Move>, before: System, b: System)
    requires ms != [] && Arrived(cfg, ms, b) && Arrived(cfg, ms[..|ms| - 1], before)
    ensures MovesLeft(cfg, b) + 1 - MovesLeft(cfg, before)
         <= WakeAllowance(cfg, ms) - WakeAllowance(cfg, ms[..|ms| - 1])
  {
    OneAllowance(cfg, ms);
    ArrivedInv(cfg, ms[..|ms| - 1], before);
    MoveWorks(cfg, before, ms[|ms| - 1]);
  }

  /** And where its clients leave room it ends only when everything is done: every producer has published all its items
      and every consumer has read the whole log. */
  lemma StoppedMeansDone(cfg: Config, ms: seq<Move>, b: System)
    requires Arrived(cfg, ms, b) && Roomy(cfg) && forall m: Move :: !m.Wake? ==> Next(cfg, b, m).None?
    ensures AllDone(cfg, b)
    ensures forall c :: 0 <= c < |b.s.got| ==> b.s.got[c] == Log(cfg, b.s.owner)
  {
    ArrivedInv(cfg, ms, b);
    if !AllDone(cfg, b) {
      var m := SomeoneCanMove(cfg, b);
      assert false;
    }
    var ls := BlockingRunsAreRuns(cfg, ms, b);
    CompletedRunDeliversAll(cfg, ls, b.s);
  }
}
