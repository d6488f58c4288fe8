/** The blocking wait strategy (include/disruptorplus/blocking_wait_strategy.hpp) as a
    step system over its mutex, its condition variable and the sequences waited for.
    Stores to the sequences happen outside the mutex, and the wait's predicate loads them
    one at a time.  Waiting on the condition variable releases the mutex and sleeps in one
    step; sleepers may also wake spuriously (section 30.5.1 of ISO/IEC 14882:2011). */
module BlockingWait {
  import opened Sums
  import opened Protocol

  /** WLock: about to lock the mutex.  WScan, WFailed, WPassed: holding it, evaluating
      the predicate, which found sequence j behind or passed.  WSleep: asleep, since it
      found j behind.  WWoken: notified, about to lock again.  WDone: returned. */
  datatype WaiterPc =
    | WLock
    | WScan(i: nat, minDelta: int)
    | WFailed(j: nat)
    | WSleep(j: nat)
    | WWoken
    | WPassed(result: int)
    | WDone(result: int)

  /** A thread in `wait_until_published(target, |src|, src)`. */
  datatype Waiter = Waiter(target: int, src: seq<nat>, pc: WaiterPc)

  /** SStored: has stored, has not yet called `signal_all_when_blocking`.
      SLocked, SNotified: inside it, before and after `notify_all`. */
  datatype SignallerPc = SIdle | SStored | SLocked | SNotified

  datatype Holder = Free | ByWaiter(w: nat) | BySignaller(q: nat)

  datatype System = System(seqs: seq<int>, mutex: Holder, waiters: seq<Waiter>, signallers: seq<SignallerPc>)

  /** Store, Begin and Wake (spurious) are moves of the environment; the others are the
      strategy's own. */
  datatype Move =
    | Store(q: nat, j: nat, v: int)
    | Begin(w: nat, target: int, src: seq<nat>)
    | Wake(w: nat)
    | Waiting(w: nat)
    | Signalling(q: nat)

  predicate Shape(s: System) {
    forall w :: 0 <= w < |s.waiters| ==> WaiterShape(s, s.waiters[w])
  }

  predicate WaiterShape(s: System, t: Waiter) {
    && (forall i :: 0 <= i < |t.src| ==> t.src[i] < |s.seqs|)
    && (t.pc.WDone? || |t.src| > 0)
    && (t.pc.WScan? ==> t.pc.i < |t.src|)
  }

  function SetWaiter(s: System, w: nat, pc: WaiterPc, mutex: Holder): System
    requires w < |s.waiters|
  {
    s.(waiters := s.waiters[w := s.waiters[w].(pc := pc)], mutex := mutex)
  }

  /** One load of the predicate. */
  function AfterLoad(s: System, t: Waiter): WaiterPc
    requires WaiterShape(s, t) && t.pc.WScan?
  {
    match ScanLoad(Ideal, s.seqs[t.src[t.pc.i]], t.target, t.pc.i, |t.src|, t.pc.minDelta)
    case Failed => WFailed(t.src[t.pc.i])
    case More(delta) => WScan(t.pc.i + 1, delta)
    case Passed(result) => WPassed(result)
  }

  function WaiterStep(s: System, w: nat): Option<System>
    requires Shape(s) && w < |s.waiters|
  {
    var t := s.waiters[w];
    assert WaiterShape(s, t);
    match t.pc
    case WLock => if s.mutex.Free? then Some(SetWaiter(s, w, WScan(0, 0), ByWaiter(w))) else None
    case WWoken => if s.mutex.Free? then Some(SetWaiter(s, w, WScan(0, 0), ByWaiter(w))) else None
    case WScan(_, _) => Some(SetWaiter(s, w, AfterLoad(s, t), s.mutex))
    case WFailed(j) => Some(SetWaiter(s, w, WSleep(j), Free))
    case WPassed(result) => Some(SetWaiter(s, w, WDone(result), Free))
    case WSleep(_) => None
    case WDone(_) => None
  }

  function NotifyAll(ws: seq<Waiter>): (r: seq<Waiter>)
    ensures |r| == |ws|
  {
    seq(|ws|, w requires 0 <= w < |ws| => if ws[w].pc.WSleep? then ws[w].(pc := WWoken) else ws[w])
  }

  function SignallerStep(s: System, q: nat): Option<System>
    requires q < |s.signallers|
  {
    match s.signallers[q]
    case SIdle => None
    case SStored =>
      if s.mutex.Free? then Some(s.(signallers := s.signallers[q := SLocked], mutex := BySignaller(q))) else None
    case SLocked => Some(s.(signallers := s.signallers[q := SNotified], waiters := NotifyAll(s.waiters)))
    case SNotified => Some(s.(signallers := s.signallers[q := SIdle], mutex := Free))
  }

  function Step(s: System, m: Move): (r: Option<System>)
    requires Shape(s)
    ensures r.Some? ==> Shape(r.value)
  {
    match m
    case Store(q, j, v) =>
      // sequences only advance; `publish(range)` stores several before it signals
      if q < |s.signallers| && (s.signallers[q].SIdle? || s.signallers[q].SStored?) && j < |s.seqs|
        && s.seqs[j] < v then
        Some(s.(seqs := s.seqs[j := v], signallers := s.signallers[q := SStored]))
      else None
    case Begin(w, target, src) =>
      if w < |s.waiters| && s.waiters[w].pc.WDone? && |src| > 0 && forall i :: 0 <= i < |src| ==> src[i] < |s.seqs| then
        Some(s.(waiters := s.waiters[w := Waiter(target, src, WLock)]))
      else None
    case Wake(w) =>
      if w < |s.waiters| && s.waiters[w].pc.WSleep? then
        assert WaiterShape(s, s.waiters[w]);
        Some(SetWaiter(s, w, WWoken, s.mutex))
      else None
    case Waiting(w) =>
      if w < |s.waiters| then
        assert WaiterShape(s, s.waiters[w]);
        WaiterStep(s, w)
      else None
    case Signalling(q) => if q < |s.signallers| then SignallerStep(s, q) else None
  }

  ghost predicate Initial(s: System) {
    && s.mutex.Free?
    && (forall w :: 0 <= w < |s.waiters| ==> s.waiters[w] == Waiter(0, [], WDone(0)))
    && (forall q :: 0 <= q < |s.signallers| ==> s.signallers[q].SIdle?)
  }

  /** The system after the moves ms from the initial system s0. */
  function Run(s0: System, ms: seq<Move>): (r: Option<System>)
    requires Shape(s0)
    ensures r.Some? ==> Shape(r.value)
  {
    if ms == [] then Some(s0)
    else match Run(s0, ms[..|ms| - 1])
      case None => None
      case Some(s) => Step(s, ms[|ms| - 1])
  }

  // ------------------------------------------------------------------
  // The invariant.
  // ------------------------------------------------------------------

  predicate HasMutex(pc: WaiterPc) { pc.WScan? || pc.WFailed? || pc.WPassed? }

  /** A signaller whose notification is still to come. */
  predicate Pending(pc: SignallerPc) { pc.SStored? || pc.SLocked? }

  ghost predicate SomePending(signallers: seq<SignallerPc>) {
    exists q :: 0 <= q < |signallers| && Pending(signallers[q])
  }

  ghost predicate MutexInv(s: System) {
    && (forall w :: 0 <= w < |s.waiters| ==> (HasMutex(s.waiters[w].pc) <==> s.mutex == ByWaiter(w)))
    && (forall q :: 0 <= q < |s.signallers| ==>
          (s.signallers[q].SLocked? || s.signallers[q].SNotified? <==> s.mutex == BySignaller(q)))
    && (s.mutex.ByWaiter? ==> s.mutex.w < |s.waiters|)
    && (s.mutex.BySignaller? ==> s.mutex.q < |s.signallers|)
  }

  /** What a waiter's position says about the sequences it waits for. */
  ghost predicate WaiterOk(s: System, t: Waiter)
    requires WaiterShape(s, t)
  {
    match t.pc
    case WScan(i, minDelta) =>
      (i > 0 ==> minDelta >= 0) && forall k :: 0 <= k < i ==> t.target + minDelta <= s.seqs[t.src[k]]
    case WFailed(j) => j in t.src && (s.seqs[j] < t.target || SomePending(s.signallers))
    case WSleep(j) => j in t.src && (s.seqs[j] < t.target || SomePending(s.signallers))
    case WPassed(result) => t.target <= result && forall k :: 0 <= k < |t.src| ==> result <= s.seqs[t.src[k]]
    case WDone(result) => t.src == []
      || (t.target <= result && forall k :: 0 <= k < |t.src| ==> result <= s.seqs[t.src[k]])
    case _ => true
  }

  ghost predicate Inv(s: System) {
    && Shape(s) && MutexInv(s)
    && forall w :: 0 <= w < |s.waiters| ==> WaiterOk(s, s.waiters[w])
  }

  lemma StoreInv(s: System, q: nat, j: nat, v: int)
    requires Inv(s) && Step(s, Store(q, j, v)).Some?
    ensures Inv(Step(s, Store(q, j, v)).value)
  {
  }

  lemma WaiterKeepsMutex(s: System, w: nat)
    requires Shape(s) && MutexInv(s) && w < |s.waiters| && WaiterStep(s, w).Some?
    ensures MutexInv(WaiterStep(s, w).value)
  {
    assert WaiterShape(s, s.waiters[w]);
  }

  lemma OwnPositionOk(s: System, w: nat)
    requires Shape(s) && w < |s.waiters| && WaiterStep(s, w).Some?
    requires WaiterShape(s, s.waiters[w]) && WaiterOk(s, s.waiters[w])
    ensures var t := WaiterStep(s, w).value;
            && t.seqs == s.seqs && t.signallers == s.signallers && t.waiters == s.waiters[w := t.waiters[w]]
            && WaiterShape(t, t.waiters[w]) && WaiterOk(t, t.waiters[w])
  {
  }

  lemma WaiterInv(s: System, w: nat)
    requires Inv(s) && w < |s.waiters| && WaiterStep(s, w).Some?
    ensures Inv(Step(s, Waiting(w)).value)
  {
    var t := WaiterStep(s, w).value;
    assert WaiterShape(s, s.waiters[w]) && WaiterOk(s, s.waiters[w]);
    WaiterKeepsMutex(s, w);
    OwnPositionOk(s, w);
    forall v | 0 <= v < |t.waiters|
      ensures WaiterShape(t, t.waiters[v]) && WaiterOk(t, t.waiters[v])
    {
      assert WaiterShape(s, s.waiters[v]) && WaiterOk(s, s.waiters[v]);
    }
  }

  lemma SignallerInv(s: System, q: nat)
    requires Inv(s) && q < |s.signallers| && SignallerStep(s, q).Some?
    ensures Inv(Step(s, Signalling(q)).value)
  {
  }

  lemma StepInv(s: System, m: Move)
    requires Inv(s) && Step(s, m).Some?
    ensures Inv(Step(s, m).value)
  {
    match m
    case Store(q, j, v) => StoreInv(s, q, j, v);
    case Waiting(w) => WaiterInv(s, w);
    case Signalling(q) => SignallerInv(s, q);
    case _ =>
      var t := Step(s, m).value;
      forall w | 0 <= w < |t.waiters|
        ensures WaiterOk(t, t.waiters[w])
      {
        assert WaiterOk(s, s.waiters[w]);
      }
  }

  ghost predicate Reached(s0: System, ms: seq<Move>, s: System) {
    Initial(s0) && Shape(s0) && Run(s0, ms) == Some(s)
  }

  lemma {:induction false} ReachedInv(s0: System, ms: seq<Move>, s: System)
    requires Reached(s0, ms, s)
    ensures Inv(s)
  {
    if ms != [] {
      var before := Run(s0, ms[..|ms| - 1]).value;
      ReachedInv(s0, ms[..|ms| - 1], before);
      StepInv(before, ms[|ms| - 1]);
    }
  }

  // ------------------------------------------------------------------
  // The theorems.
  // ------------------------------------------------------------------

  /** All the sequences t waits for have reached its target. */
  predicate Satisfied(s: System, t: Waiter)
    requires WaiterShape(s, t)
  {
    forall k :: 0 <= k < |t.src| ==> t.target <= s.seqs[t.src[k]]
  }

  /** No lost wakeup: while a sleeper's sequences have all reached its target, some
      signaller has stored and not yet notified. */
  lemma NoLostWakeup(s0: System, ms: seq<Move>, s: System, w: nat)
    requires Reached(s0, ms, s) && w < |s.waiters| && s.waiters[w].pc.WSleep?
    requires WaiterShape(s, s.waiters[w]) && Satisfied(s, s.waiters[w])
    ensures SomePending(s.signallers)
  {
    ReachedInv(s0, ms, s);
    assert WaiterOk(s, s.waiters[w]);
  }

  // ------------------------------------------------------------------
  // What a wait returns.
  // ------------------------------------------------------------------

  /** The k-th move is w's call of `wait_until_published`, and w makes no other after it. */
  predicate LastCall(ms: seq<Move>, k: nat, w: nat) {
    k < |ms| && ms[k].Begin? && ms[k].w == w && forall j :: k < j < |ms| ==> !(ms[j].Begin? && ms[j].w == w)
  }

  lemma RunPrefix(s0: System, ms: seq<Move>, s: System) returns (before: System)
    requires Reached(s0, ms, s) && ms != []
    ensures Reached(s0, ms[..|ms| - 1], before) && Step(before, ms[|ms| - 1]) == Some(s)
  {
    before := Run(s0, ms[..|ms| - 1]).value;
  }

  /** A wait can begin where the last one has ended; it then waits for what it is called for. */
  lemma WaitsCanBegin(s: System, w: nat, target: int, src: seq<nat>)
    requires Shape(s) && w < |s.waiters|
    ensures Step(s, Begin(w, target, src)).Some?
       <==> s.waiters[w].pc.WDone? && src != [] && forall i :: 0 <= i < |src| ==> src[i] < |s.seqs|
    ensures Step(s, Begin(w, target, src)).Some? ==>
              Step(s, Begin(w, target, src)).value == s.(waiters := s.waiters[w := Waiter(target, src, WLock)])
  {
  }

  /** Sequences only advance, and only to what is stored. */
  lemma OnlyStoresAdvance(s: System, m: Move)
    requires Shape(s) && Step(s, m).Some?
    ensures var t := Step(s, m).value;
            && |t.seqs| == |s.seqs| && (forall i :: 0 <= i < |s.seqs| ==> s.seqs[i] <= t.seqs[i])
            && (m.Store? ==> m.j < |s.seqs| && t.seqs == s.seqs[m.j := m.v]) && (!m.Store? ==> t.seqs == s.seqs)
  {
  }

  lemma SameWait(s: System, m: Move, w: nat)
    requires Shape(s) && Step(s, m).Some? && w < |s.waiters| && !(m.Begin? && m.w == w)
    ensures var t := Step(s, m).value;
            |t.waiters| == |s.waiters| && t.waiters[w].target == s.waiters[w].target
              && t.waiters[w].src == s.waiters[w].src
  {
  }

  /** Until the next call, w waits for what it was called for. */
  lemma {:induction false} CallWaitsFor(s0: System, ms: seq<Move>, s: System, k: nat, w: nat)
    requires Reached(s0, ms, s) && LastCall(ms, k, w)
    ensures w < |s.waiters| && s.waiters[w].target == ms[k].target && s.waiters[w].src == ms[k].src != []
  {
    var before := RunPrefix(s0, ms, s);
    if k + 1 < |ms| {
      CallWaitsFor(s0, ms[..|ms| - 1], before, k, w);
      SameWait(before, ms[|ms| - 1], w);
    }
  }

  predicate AllAtLeast(s: System, src: seq<nat>, b: int) {
    forall i :: 0 <= i < |src| ==> src[i] < |s.seqs| && b <= s.seqs[src[i]]
  }

  /** What a scan that began with all its sequences at or beyond b has computed. */
  predicate ScanBound(t: Waiter, b: int) {
    match t.pc
    case WScan(i, minDelta) => i > 0 ==> b <= t.target + minDelta
    case WPassed(result) => b <= result
    case WDone(result) => b <= result
    case _ => true
  }

  lemma MoveKeepsBound(s: System, m: Move, w: nat, b: int)
    requires Shape(s) && Step(s, m).Some? && w < |s.waiters| && !(m.Begin? && m.w == w)
    requires AllAtLeast(s, s.waiters[w].src, b) && ScanBound(s.waiters[w], b)
    ensures var t := Step(s, m).value;
            w < |t.waiters| && AllAtLeast(t, t.waiters[w].src, b) && ScanBound(t.waiters[w], b)
  {
    SameWait(s, m, w);
    OnlyStoresAdvance(s, m);
    assert WaiterShape(s, s.waiters[w]);
  }

  /** After j moves w has just taken the mutex, and all the sequences it waits for are at or
      beyond b. */
  ghost predicate ScansFrom(s0: System, ms: seq<Move>, j: nat, w: nat, b: int)
    requires Shape(s0) && j <= |ms|
  {
    Run(s0, ms[..j]).Some? &&
    var s := Run(s0, ms[..j]).value;
    w < |s.waiters| && s.waiters[w].pc.WScan? && s.waiters[w].pc.i == 0 && AllAtLeast(s, s.waiters[w].src, b)
  }

  lemma {:induction false} WaitKeepsBound(s0: System, ms: seq<Move>, s: System, k: nat, w: nat, j: nat, b: int)
    requires Reached(s0, ms, s) && LastCall(ms, k, w) && k < j <= |ms| && ScansFrom(s0, ms, j, w, b)
    ensures w < |s.waiters| && AllAtLeast(s, s.waiters[w].src, b) && ScanBound(s.waiters[w], b)
  {
    if j == |ms| {
      assert ms[..j] == ms;
    } else {
      var before := RunPrefix(s0, ms, s);
      assert ms[..|ms| - 1][..j] == ms[..j];
      WaitKeepsBound(s0, ms[..|ms| - 1], before, k, w, j, b);
      MoveKeepsBound(before, ms[|ms| - 1], w, b);
    }
  }

  /** A wait returns a sequence at or after the target it was called with, that every
      sequence it was called for has reached, then and ever after. */
  lemma WaitReturnsReachedSequence(s0: System, ms: seq<Move>, s: System, k: nat, w: nat)
    requires Reached(s0, ms, s) && LastCall(ms, k, w) && w < |s.waiters| && s.waiters[w].pc.WDone?
    ensures var result, src := s.waiters[w].pc.result, ms[k].src;
            ms[k].target <= result && forall i :: 0 <= i < |src| ==> src[i] < |s.seqs| && result <= s.seqs[src[i]]
  {
    ReachedInv(s0, ms, s);
    CallWaitsFor(s0, ms, s, k, w);
    assert WaiterShape(s, s.waiters[w]) && WaiterOk(s, s.waiters[w]);
  }

  /** And it is no less than the least of them was when its last scan began: whatever
      bound b all of them had reached when w took the mutex for some scan of the call, the
      result is at or after b. */
  lemma WaitReturnsTheLeast(s0: System, ms: seq<Move>, s: System, k: nat, w: nat, j: nat, b: int)
    requires Reached(s0, ms, s) && LastCall(ms, k, w) && w < |s.waiters| && s.waiters[w].pc.WDone?
    requires k < j <= |ms| && ScansFrom(s0, ms, j, w, b)
    ensures b <= s.waiters[w].pc.result
  {
    WaitKeepsBound(s0, ms, s, k, w, j, b);
  }

  ghost predicate Scanned(s0: System, ms: seq<Move>, k: nat, w: nat)
    requires Shape(s0)
  {
    exists j :: k < j <= |ms| && TakesMutex(s0, ms[..j], w)
  }

  ghost predicate TakesMutex(s0: System, ms: seq<Move>, w: nat)
    requires Shape(s0)
  {
    Run(s0, ms).Some? && w < |Run(s0, ms).value.waiters| && Run(s0, ms).value.waiters[w].pc == WScan(0, 0)
  }

  lemma FirstScan(s: System, m: Move, w: nat)
    requires Shape(s) && Step(s, m).Some? && w < |s.waiters| && s.waiters[w].pc.WLock? && !(m.Begin? && m.w == w)
    ensures var t := Step(s, m).value;
            w < |t.waiters| && (t.waiters[w].pc.WLock? || t.waiters[w].pc == WScan(0, 0))
  {
  }

  /** Every wait scans under the mutex before it returns, even if it finds nothing behind. */
  lemma {:induction false} EveryWaitScans(s0: System, ms: seq<Move>, s: System, k: nat, w: nat)
    requires Reached(s0, ms, s) && LastCall(ms, k, w)
    ensures w < |s.waiters| && (s.waiters[w].pc.WLock? || Scanned(s0, ms, k, w))
  {
    var before := RunPrefix(s0, ms, s);
    if k + 1 < |ms| {
      var prefix := ms[..|ms| - 1];
      EveryWaitScans(s0, prefix, before, k, w);
      if Scanned(s0, prefix, k, w) {
        var j :| k < j <= |prefix| && TakesMutex(s0, prefix[..j], w);
        assert prefix[..j] == ms[..j];
        SameWait(before, ms[|ms| - 1], w);
      } else {
        FirstScan(before, ms[|ms| - 1], w);
        assert ms[..|ms|] == ms;
      }
    }
  }

  // ------------------------------------------------------------------
  // Every satisfied waiter returns, under every schedule.
  // ------------------------------------------------------------------

  function WakeCost(t: Waiter): int { |t.src| + 2 }

  function WaiterWork(t: Waiter): int {
    match t.pc
    case WLock => WakeCost(t)
    case WWoken => WakeCost(t)
    case WScan(i, _) => |t.src| + 1 - i
    case WFailed(_) => 1
    case WPassed(_) => 1
    case WSleep(_) => 0
    case WDone(_) => 0
  }

  function WakeCosts(ws: seq<Waiter>): seq<int> { seq(|ws|, w requires 0 <= w < |ws| => WakeCost(ws[w])) }

  function WaiterWorks(ws: seq<Waiter>): seq<int> { seq(|ws|, w requires 0 <= w < |ws| => WaiterWork(ws[w])) }

  function SignallerWork(all: int, pc: SignallerPc): int {
    match pc
    case SIdle => 0
    case SStored => all + 3
    case SLocked => all + 2
    case SNotified => 1
  }

  function SignallerWorks(all: int, qs: seq<SignallerPc>): seq<int> {
    seq(|qs|, q requires 0 <= q < |qs| => SignallerWork(all, qs[q]))
  }

  /** A bound on the strategy's own moves before something new is stored. */
  function Work(s: System): int {
    Sum(WaiterWorks(s.waiters)) + Sum(SignallerWorks(Sum(WakeCosts(s.waiters)), s.signallers))
  }

  predicate OwnMove(m: Move) { m.Waiting? || m.Signalling? }

  lemma WorkIsBounded(s: System)
    requires Inv(s)
    ensures Work(s) >= 0
  {
    forall w | 0 <= w < |s.waiters|
      ensures WaiterWorks(s.waiters)[w] >= 0
    {
      assert WaiterShape(s, s.waiters[w]);
    }
    SumNonNegative(WakeCosts(s.waiters));
    SumNonNegative(WaiterWorks(s.waiters));
    SumNonNegative(SignallerWorks(Sum(WakeCosts(s.waiters)), s.signallers));
  }

  lemma OneWaiterWorks(s: System, w: nat)
    requires Inv(s) && w < |s.waiters| && WaiterStep(s, w).Some?
    ensures WaiterWork(WaiterStep(s, w).value.waiters[w]) < WaiterWork(s.waiters[w])
  {
  }

  lemma WaiterWorksLess(s: System, w: nat)
    requires Inv(s) && w < |s.waiters| && WaiterStep(s, w).Some?
    ensures Work(Step(s, Waiting(w)).value) < Work(s)
  {
    var t := WaiterStep(s, w).value;
    OneWaiterWorks(s, w);
    assert t.signallers == s.signallers && t.waiters == s.waiters[w := t.waiters[w]]
           && t.waiters[w].src == s.waiters[w].src;
    assert WakeCosts(t.waiters) == WakeCosts(s.waiters);
    var v := WaiterWork(t.waiters[w]);
    assert WaiterWorks(t.waiters) == WaiterWorks(s.waiters)[w := v];
    SumUpdate(WaiterWorks(s.waiters), w, v);
  }

  lemma NotifyCost(s: System)
    requires Inv(s)
    ensures Sum(WaiterWorks(NotifyAll(s.waiters))) <= Sum(WaiterWorks(s.waiters)) + Sum(WakeCosts(s.waiters))
  {
    var ws := s.waiters;
    forall w | 0 <= w < |ws|
      ensures WaiterWorks(NotifyAll(ws))[w] <= WaiterWorks(ws)[w] + WakeCosts(ws)[w]
    {
      assert WaiterShape(s, ws[w]);
    }
    SumOfSums(WaiterWorks(NotifyAll(ws)), WaiterWorks(ws), WakeCosts(ws));
  }

  lemma SignallerWorksLess(s: System, q: nat)
    requires Inv(s) && q < |s.signallers| && SignallerStep(s, q).Some?
    ensures Work(Step(s, Signalling(q)).value) < Work(s)
  {
    var t := SignallerStep(s, q).value;
    var all := Sum(WakeCosts(s.waiters));
    SumNonNegative(WakeCosts(s.waiters));
    assert WakeCosts(t.waiters) == WakeCosts(s.waiters);
    var v := SignallerWork(all, t.signallers[q]);
    assert SignallerWorks(all, t.signallers) == SignallerWorks(all, s.signallers)[q := v];
    SumUpdate(SignallerWorks(all, s.signallers), q, v);
    NotifyCost(s);
  }

  /** The strategy's own moves cannot go on forever without a store, a new wait or a
      spurious wakeup. */
  lemma OwnMovesTerminate(s: System, m: Move)
    requires Inv(s) && OwnMove(m) && Step(s, m).Some?
    ensures 0 <= Work(Step(s, m).value) < Work(s)
  {
    StepInv(s, m);
    WorkIsBounded(Step(s, m).value);
    if m.Waiting? { WaiterWorksLess(s, m.w); } else { SignallerWorksLess(s, m.q); }
  }

  /** Whoever holds the mutex can move. */
  lemma HolderCanMove(s: System) returns (m: Move)
    requires Inv(s) && !s.mutex.Free?
    ensures OwnMove(m) && Step(s, m).Some?
  {
    m := if s.mutex.ByWaiter? then Waiting(s.mutex.w) else Signalling(s.mutex.q);
  }

  /** And where they stop, every waiter whose sequences have reached its target has
      returned; the others are asleep. */
  lemma StoppedMeansServed(s0: System, ms: seq<Move>, s: System)
    requires Reached(s0, ms, s) && forall m :: OwnMove(m) ==> Step(s, m).None?
    ensures forall w :: 0 <= w < |s.waiters| ==> s.waiters[w].pc.WDone? || s.waiters[w].pc.WSleep?
    ensures forall w :: 0 <= w < |s.waiters| && WaiterShape(s, s.waiters[w]) && Satisfied(s, s.waiters[w]) ==>
              s.waiters[w].pc.WDone?
    ensures s.mutex.Free? && forall q :: 0 <= q < |s.signallers| ==> s.signallers[q].SIdle?
  {
    ReachedInv(s0, ms, s);
    if !s.mutex.Free? {
      var m := HolderCanMove(s);
      assert false;
    }
    forall q: nat | q < |s.signallers|
      ensures s.signallers[q].SIdle?
    {
      assert Step(s, Signalling(q)).None?;
    }
    forall w: nat | w < |s.waiters|
      ensures s.waiters[w].pc.WDone? || s.waiters[w].pc.WSleep?
      ensures WaiterShape(s, s.waiters[w]) && Satisfied(s, s.waiters[w]) ==> s.waiters[w].pc.WDone?
    {
      assert Step(s, Waiting(w)).None?;
      assert WaiterShape(s, s.waiters[w]) && WaiterOk(s, s.waiters[w]);
    }
  }
}
