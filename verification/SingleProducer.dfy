/** The single-producer claim strategy
    (include/disruptorplus/single_threaded_claim_strategy.hpp), with its clients' ring and
    consumers, as a cheaper implementation of the same abstract queue.

    Each of its operations touches shared memory once, except the scans of the claim
    barriers, during which consumers may advance: a scan is given by one snapshot of the
    barriers per load.  A blocking wait is represented by the scan that ends it. */
module SingleProducer {
  import opened Sequences
  import opened Slots
  import opened RingBuffer
  import BroadcastQueue

  /** Consumer c has read a prefix of the log, is not ahead of the consumers it waits for,
      and finds in the ring every item it has not released. */
  predicate ConsumerOk(n: nat, deps: seq<seq<nat>>, released: seq<int>, got: seq<seq<int>>, log: seq<int>,
      items: seq<int>, c: nat)
    requires 0 < n == |items| && c < |deps| == |released| == |got|
  {
    && -1 <= released[c] < |got[c]| && got[c] <= log
    && (forall d :: d in deps[c] ==> d < |deps| && |got[c]| <= released[d] + 1)
    && (forall x :: released[c] < x < |log| && 0 <= x ==> items[Slot(n, x)] == log[x])
  }

  predicate ConsumersOk(n: nat, deps: seq<seq<nat>>, released: seq<int>, got: seq<seq<int>>, log: seq<int>,
      items: seq<int>)
    requires 0 < n == |items| && |deps| == |released| == |got|
  {
    forall c: nat :: c < |deps| ==> ConsumerOk(n, deps, released, got, log, items, c)
  }

  lemma WriteKeeps(n: nat, deps: seq<seq<nat>>, released: seq<int>, got: seq<seq<int>>, log: seq<int>, items: seq<int>,
      x: int, value: int)
    requires 0 < n == |items| && |deps| == |released| == |got| && ConsumersOk(n, deps, released, got, log, items)
    requires forall c: nat, y :: c < |deps| && released[c] < y < |log| && 0 <= y ==> Slot(n, x) != Slot(n, y)
    ensures ConsumersOk(n, deps, released, got, log, items[Slot(n, x) := value])
  {
    var items' := items[Slot(n, x) := value];
    forall c: nat | c < |deps|
      ensures ConsumerOk(n, deps, released, got, log, items', c)
    {
      assert ConsumerOk(n, deps, released, got, log, items, c);
    }
  }

  lemma PublishKeeps(n: nat, deps: seq<seq<nat>>, released: seq<int>, got: seq<seq<int>>, log: seq<int>,
      items: seq<int>, more: seq<int>)
    requires 0 < n == |items| && |deps| == |released| == |got| && ConsumersOk(n, deps, released, got, log, items)
    requires forall i :: 0 <= i < |more| ==> more[i] == items[Slot(n, |log| + i)]
    ensures ConsumersOk(n, deps, released, got, log + more, items)
  {
    forall c: nat | c < |deps|
      ensures ConsumerOk(n, deps, released, got, log + more, items, c)
    {
      assert ConsumerOk(n, deps, released, got, log, items, c);
      forall x | |log| <= x < |log| + |more|
        ensures (log + more)[x] == items[Slot(n, x)]
      {
        assert more[x - |log|] == items[Slot(n, |log| + (x - |log|))];
      }
    }
  }

  lemma ReadKeeps(n: nat, deps: seq<seq<nat>>, released: seq<int>, got: seq<seq<int>>, log: seq<int>, items: seq<int>,
      c: nat)
    requires 0 < n == |items| && |deps| == |released| == |got| && ConsumersOk(n, deps, released, got, log, items)
    requires c < |deps| && |got[c]| < |log| && forall d :: d in deps[c] ==> d < |deps| && |got[c]| <= released[d]
    ensures ConsumersOk(n, deps, released, got[c := got[c] + [log[|got[c]|]]], log, items)
  {
    var got' := got[c := got[c] + [log[|got[c]|]]];
    forall b: nat | b < |deps|
      ensures ConsumerOk(n, deps, released, got', log, items, b)
    {
      assert ConsumerOk(n, deps, released, got, log, items, b);
    }
  }

  lemma ReleaseKeeps(n: nat, deps: seq<seq<nat>>, released: seq<int>, got: seq<seq<int>>, log: seq<int>,
      items: seq<int>, c: nat)
    requires 0 < n == |items| && |deps| == |released| == |got| && ConsumersOk(n, deps, released, got, log, items)
    requires c < |deps| && released[c] < |got[c]| - 1
    ensures ConsumersOk(n, deps, released[c := |got[c]| - 1], got, log, items)
  {
    var released' := released[c := |got[c]| - 1];
    forall b: nat | b < |deps|
      ensures ConsumerOk(n, deps, released', got, log, items, b)
    {
      assert ConsumerOk(n, deps, released, got, log, items, b);
    }
  }

  lemma Slice(log: seq<int>, i: nat, j: nat)
    requires i <= j < |log|
    ensures log[i..j] + [log[j]] == log[i..j + 1]
  {
  }

  class Queue {
    const n: nat
    const deps: seq<seq<nat>>
    const gate: seq<nat>
    const ring: Ring

    var nextSequenceToClaim: Word
    var readBarrier: Word
    var barriers: seq<Word>

    // The ideal sequence numbers the words stand for, and the abstract queue.
    ghost var next: int
    ghost var released: seq<int>
    ghost var log: seq<int>
    ghost var got: seq<seq<int>>

    constructor (ring: Ring, deps: seq<seq<nat>>, gate: seq<nat>)
      requires ring.Valid() && ring.data.Length < HALF / 4 && |gate| > 0
      requires forall i :: 0 <= i < |gate| ==> gate[i] < |deps|
      requires forall c, d :: 0 <= c < |deps| && d in deps[c] ==> d < c
      requires forall c: nat :: c < |deps| ==> c in gate || exists d :: c < d < |deps| && c in deps[d]
      ensures Valid() && this.ring == ring && this.deps == deps && this.gate == gate && n == ring.data.Length
      ensures log == [] && next == 0 && forall c :: 0 <= c < |deps| ==> released[c] == -1 && got[c] == []
    {
      this.n, this.deps, this.gate, this.ring := ring.data.Length, deps, gate, ring;
      nextSequenceToClaim, readBarrier := 0, Wrap(-1);
      barriers := seq(|deps|, _ => Wrap(-1));
      next, log := 0, [];
      released, got := seq(|deps|, _ => -1), seq(|deps|, _ => []);
      new;
      assert forall c: nat :: c < |deps| ==> Gated(c);
    }

    ghost predicate Graph() {
      && n < HALF / 4 && |gate| > 0 && ring.Valid() && ring.data.Length == n
      && (forall i :: 0 <= i < |gate| ==> gate[i] < |deps|)
      && (forall c, d :: 0 <= c < |deps| && d in deps[c] ==> d < c)
      && (forall c: nat :: c < |deps| ==> Gated(c))
    }

    ghost predicate Gated(c: nat) {
      c in gate || exists d :: c < d < |deps| && c in deps[d]
    }

    ghost predicate Words()
      reads this
    {
      && nextSequenceToClaim == Wrap(next) && readBarrier == Wrap(|log| - 1)
      && Represents(barriers, released)
    }

    ghost predicate Valid()
      reads this, ring.data
    {
      && Graph() && Words()
      && |released| == |got| == |deps| && |log| <= next
      && ConsumersOk(n, deps, released, got, log, ring.data[..])
      && (forall i :: 0 <= i < |gate| ==> next - 1 - n <= released[gate[i]])
    }

    ghost predicate ThisConsumerOk(c: nat)
      requires Graph() && c < |deps| == |released| == |got|
      reads this, ring.data
    {
      ConsumerOk(n, deps, released, got, log, ring.data[..], c)
    }

    ghost function Abs(): BroadcastQueue.Queue
      reads this
    {
      BroadcastQueue.Queue(log, seq(|released|, c requires 0 <= c < |released| reads this => released[c] + 1), got)
    }

    /** Transitive gating: no claim is a lap ahead of any consumer. */
    lemma {:induction false} Gating(c: nat)
      requires Valid() && c < |deps|
      ensures next - 1 - n <= released[c]
      decreases |deps| - c
    {
      assert Gated(c);
      if c !in gate {
        var d: nat :| c < d < |deps| && c in deps[d];
        Gating(d);
        assert ThisConsumerOk(d);
      }
    }

    /** The abstract queue of a valid object is consistent. */
    lemma IsQueue()
      requires Valid()
      ensures BroadcastQueue.Consistent(n, deps, Abs())
    {
      forall c: nat | c < |deps|
        ensures |log| <= released[c] + 1 + n && ThisConsumerOk(c)
      {
        Gating(c);
      }
    }

    /** A scan of the claim barriers: history[i] is what the gating barriers were at its
        i-th load; they have only advanced since. */
    ghost predicate ScanOf(memory: seq<seq<Word>>, history: seq<seq<int>>)
      requires Graph() && |released| == |deps|
      reads this
    {
      && Snapshots(memory) && OnlyAdvances(history) && |memory| == |history| == |gate|
      && (forall i :: 0 <= i < |gate| ==> Represents(memory[i], history[i]))
      && (forall i, k :: 0 <= i < |gate| && 0 <= k < |gate| ==> next - 1 - n <= history[i][k] <= released[gate[k]])
    }

    /** What a scan of gating barriers tells about their minimum. */
    lemma ScanFacts(memory: seq<seq<Word>>, history: seq<seq<int>>) returns (m: int)
      requires Valid() && ScanOf(memory, history)
      ensures IsMin(m, Loads(history)) && CircularMin(Loads(memory)) == Wrap(m)
      ensures next - 1 - n <= m < next
      ensures forall k :: 0 <= k < |gate| ==> m <= released[gate[k]]
      ensures exists k :: 0 <= k < |gate| && history[0][k] <= m
    {
      var loads := Loads(history);
      forall k | 0 <= k < |gate|
        ensures next - 1 - n <= loads[k] <= released[gate[k]] < |log|
      {
        assert ThisConsumerOk(gate[k]);
      }
      m := CircularMinIsMin(Loads(memory), loads);
      var i :| 0 <= i < |gate| && loads[i] == m;
      assert history[0][i] <= m;
      forall k | 0 <= k < |gate|
        ensures m <= released[gate[k]]
      {
        assert loads[k] in loads;
      }
    }

    /** The slots a completed scan lets the producer claim, given difference >= 0. */
    lemma Room(r: Word, m: int)
      requires Valid() && r == Wrap(m) && next - 1 - n <= m < next
      ensures Difference(Wrap(r + n), nextSequenceToClaim) == m + n - next
      ensures m + n - next + 1 <= n
    {
      WrapSum(m, n);
      DifferenceIsTrueDifference(m + n, next);
    }

    /** Hands out the next count sequences. */
    method Take(count: nat) returns (range: SequenceRange)
      requires Valid() && forall k :: 0 <= k < |gate| ==> next + count - 1 - n <= released[gate[k]]
      modifies `nextSequenceToClaim, `next
      ensures Valid() && Abs() == old(Abs()) && next == old(next) + count
      ensures range == SequenceRange(Wrap(old(next)), count)
    {
      range := SequenceRange(nextSequenceToClaim, count);
      WrapSum(next, count);
      nextSequenceToClaim, next := Wrap(nextSequenceToClaim + count), next + count;
    }

    /** The target of the claim methods' waits, and that the wait's last scan passed. */
    ghost predicate Passes(memory: seq<seq<Word>>)
      requires Snapshots(memory)
      reads this
    {
      forall w :: w in Loads(memory) ==> Difference(w, Wrap(nextSequenceToClaim - n)) >= 0
    }

    /** A wait that returns has found the least barrier at or after its target. */
    lemma WaitFacts(memory: seq<seq<Word>>, history: seq<seq<int>>, r: Word) returns (m: int)
      requires Valid() && ScanOf(memory, history) && Passes(memory)
      requires r in Loads(memory)
      requires forall w :: w in Loads(memory) ==>
                 Difference(r, Wrap(nextSequenceToClaim - n)) <= Difference(w, Wrap(nextSequenceToClaim - n))
      ensures IsMin(m, Loads(history)) && r == Wrap(m) && next - n <= m < next
      ensures forall k :: 0 <= k < |gate| ==> m <= released[gate[k]]
    {
      m := ScanFacts(memory, history);
      WrapSum(next, 0 - n);
      forall x | x in Loads(history)
        ensures next - n <= x < next
      {
        LoadPassed(memory, history, x);
      }
      AfterAgreesWithMinimum(next - n, r, Loads(memory), Loads(history));
    }

    lemma LoadPassed(memory: seq<seq<Word>>, history: seq<seq<int>>, x: int)
      requires Valid() && ScanOf(memory, history) && Passes(memory) && x in Loads(history)
      ensures next - n <= x < next
    {
      var k :| 0 <= k < |gate| && Loads(history)[k] == x;
      assert ThisConsumerOk(gate[k]);
      assert Loads(memory)[k] in Loads(memory);
      SameSign(Loads(memory)[k], x);
    }

    /** `claim_one` */
    method ClaimOne(memory: seq<seq<Word>>, ghost history: seq<seq<int>>) returns (s: Word)
      requires Valid() && ScanOf(memory, history) && Passes(memory)
      modifies `nextSequenceToClaim, `next
      ensures Valid() && Abs() == old(Abs())
      ensures s == Wrap(old(next)) && next == old(next) + 1
    {
      var r := MinimumSequenceAfter(Wrap(nextSequenceToClaim - n), memory);
      ghost var m := WaitFacts(memory, history, r);
      var range := Take(1);
      s := range.first;
    }

    /** `claim`: exactly min(count, free slots it observed), and at most n. */
    method Claim(count: nat, memory: seq<seq<Word>>, ghost history: seq<seq<int>>) returns (range: SequenceRange)
      requires Valid() && ScanOf(memory, history) && Passes(memory)
      modifies `nextSequenceToClaim, `next
      ensures Valid() && Abs() == old(Abs())
      ensures range.first == Wrap(old(next)) && next == old(next) + range.size
      ensures exists m :: IsMin(m, Loads(history)) && range.size == Min(count, m + n + 1 - old(next))
      ensures range.size <= n && (count > 0 ==> range.size > 0)
    {
      var claimable := MinimumSequenceAfter(Wrap(nextSequenceToClaim - n), memory);
      ghost var m := WaitFacts(memory, history, claimable);
      Room(claimable, m);
      var diff := Difference(Wrap(claimable + n), nextSequenceToClaim);
      range := Take(Min(count, diff + 1));
    }

    /** `try_claim`: false only if no slot was free when its scan began; otherwise exactly
        min(count, free slots it observed). */
    method TryClaim(count: nat, memory: seq<seq<Word>>, ghost history: seq<seq<int>>)
        returns (ok: bool, range: SequenceRange)
      requires Valid() && ScanOf(memory, history)
      modifies `nextSequenceToClaim, `next
      ensures Valid() && Abs() == old(Abs())
      ensures ok <==> forall m :: IsMin(m, Loads(history)) ==> old(next) <= m + n
      ensures !ok ==> next == old(next) && exists k :: 0 <= k < |gate| && history[0][k] + n < next
      ensures ok ==> range.first == Wrap(old(next)) && next == old(next) + range.size && range.size <= n
      ensures ok ==> exists m :: IsMin(m, Loads(history)) && range.size == Min(count, m + n + 1 - old(next))
    {
      var least := MinimumSequence(memory);
      ghost var m := ScanFacts(memory, history);
      Room(least, m);
      var diff := Difference(Wrap(least + n), nextSequenceToClaim);
      range := SequenceRange(0, 0);
      ok := diff >= 0;
      if ok {
        range := Take(Min(count, diff + 1));
      }
    }

    /** `try_claim_for` / `try_claim_until`: `last` is the scan that ended the timed wait,
        by success or by time-out. */
    method TryClaimUntil(count: nat, memory: seq<seq<Word>>, ghost history: seq<seq<int>>,
                         last: seq<seq<Word>>, ghost lastHistory: seq<seq<int>>)
      returns (ok: bool, range: SequenceRange)
      requires Valid() && ScanOf(memory, history) && ScanOf(last, lastHistory)
      modifies `nextSequenceToClaim, `next
      ensures Valid() && Abs() == old(Abs())
      ensures !ok ==> next == old(next) && (exists k :: 0 <= k < |gate| && history[0][k] + n < next)
                      && (exists k :: 0 <= k < |gate| && lastHistory[k][k] + n < next)
      ensures ok ==> range.first == Wrap(old(next)) && next == old(next) + range.size && range.size <= n
      ensures ok ==> (exists m :: IsMin(m, Loads(history)) && old(next) <= m + n
                                  && range.size == Min(count, m + n + 1 - old(next)))
                     || ((forall m :: IsMin(m, Loads(history)) ==> m + n < old(next))
                         && exists m :: IsMin(m, Loads(lastHistory)) && range.size == Min(count, m + n + 1 - old(next)))
      ensures ok && count > 0 ==> range.size > 0
    {
      ok, range := TryClaim(count, memory, history);
      if !ok {
        ok, range := TimedClaim(count, last, lastHistory);
      }
    }

    /** The timed wait, and the claim that follows unless it timed out. */
    method TimedClaim(count: nat, memory: seq<seq<Word>>, ghost history: seq<seq<int>>)
        returns (ok: bool, range: SequenceRange)
      requires Valid() && ScanOf(memory, history)
      modifies `nextSequenceToClaim, `next
      ensures Valid() && Abs() == old(Abs())
      ensures !ok ==> next == old(next) && exists k :: 0 <= k < |gate| && history[k][k] + n < next
      ensures ok ==> range.first == Wrap(old(next)) && next == old(next) + range.size && range.size <= n
      ensures ok ==> exists m :: IsMin(m, Loads(history)) && old(next) <= m + n
                                 && range.size == Min(count, m + n + 1 - old(next))
      ensures ok && count > 0 ==> range.size > 0
    {
      range := SequenceRange(0, 0);
      var claimable := MinimumSequenceAfter(Wrap(nextSequenceToClaim - n), memory);
      var diff := Difference(Wrap(claimable + n), nextSequenceToClaim);
      ghost var k := LoadedFrom(memory, history, claimable);
      ok := diff >= 0;
      if ok {
        SameSign(claimable, history[k][k]);
        ghost var m := WaitFacts(memory, history, claimable);
        Room(claimable, m);
        range := Take(Min(count, diff + 1));
      }
    }

    lemma LoadedFrom(memory: seq<seq<Word>>, history: seq<seq<int>>, r: Word) returns (k: nat)
      requires Valid() && ScanOf(memory, history) && r in Loads(memory)
      ensures k < |gate| && r == Wrap(history[k][k]) && next - 1 - n <= history[k][k] < next
      ensures Difference(Wrap(r + n), nextSequenceToClaim) == history[k][k] + n - next
    {
      k :| 0 <= k < |gate| && Loads(memory)[k] == r;
      assert ThisConsumerOk(gate[k]);
      Room(r, history[k][k]);
    }

    lemma SameSign(r: Word, x: int)
      requires Valid() && r == Wrap(x) && next - 1 - n <= x < next
      ensures Difference(r, Wrap(nextSequenceToClaim - n)) == x + n - next
    {
      WrapSum(next, 0 - n);
      DifferenceIsTrueDifference(x, next - n);
    }

    /** The producer fills the slot of a sequence it has claimed. */
    method Write(s: Word, ghost x: int, value: int)
      requires Valid() && s == Wrap(x) && |log| <= x < next
      modifies ring.data
      ensures Valid() && Abs() == old(Abs())
      ensures ring.data[..] == old(ring.data[..])[Slot(n, x) := value]
    {
      forall c: nat, y | c < |deps| && released[c] < y < |log| && 0 <= y
        ensures Slot(n, x) != Slot(n, y)
      {
        Gating(c);
        if Slot(n, x) == Slot(n, y) { SameSlot(n, y, x); }
      }
      WriteKeeps(n, deps, released, got, log, ring.data[..], x, value);
      ring.Set(s, x, value);
    }

    /** `publish`: all sequences up to x become readable, as the ring holds them. */
    method Publish(s: Word, ghost x: int)
      requires Valid() && s == Wrap(x) && |log| <= x < next
      modifies `readBarrier, `log
      ensures Valid() && |log| == x + 1
      ensures BroadcastQueue.Next(n, deps, old(Abs()), BroadcastQueue.Append(Items(old(|log|), x + 1)), Abs())
    {
      forall c: nat | c < |deps|
        ensures x + 1 <= released[c] + 1 + n
      {
        Gating(c);
      }
      ghost var items := Items(|log|, x + 1);
      PublishKeeps(n, deps, released, got, log, ring.data[..], items);
      readBarrier := s;
      log := log + items;
    }

    /** What the ring holds for the sequences from..to. */
    ghost function Items(from: int, to: int): (r: seq<int>)
      requires 0 < n == ring.data.Length && from <= to
      reads ring.data
      ensures |r| == to - from && forall i :: 0 <= i < to - from ==> r[i] == ring.data[Slot(n, from + i)]
    {
      seq(to - from, i requires 0 <= i reads ring.data => ring.data[Slot(n, from + i)])
    }

    /** `wait_until_published` and `last_published`, by consumer c for its next item: the
        sequence returned is at or after that item exactly when it is published, and all
        items up to it can be read.  (Otherwise the wait goes on, or has timed out.) */
    method WaitUntilPublished(c: nat, s: Word) returns (r: Word)
      requires Valid() && c < |deps| && s == Wrap(|got[c]|)
      ensures r == Wrap(|log| - 1)
      ensures Difference(r, s) >= 0 <==> |got[c]| < |log|
      ensures forall x :: |got[c]| <= x < |log| ==> ring.data[Slot(n, x)] == log[x]
    {
      r := readBarrier;
      Gating(c);
      assert ThisConsumerOk(c);
      DifferenceIsTrueDifference(|log| - 1, |got[c]|);
    }

    /** The consumers' loop: read all items up to `available`, then release them.  A
        consumer with no stage before it gets `available` from `WaitUntilPublished`. */
    method ReadBatch(c: nat, s: Word, available: Word, ghost a: int) returns (values: seq<int>)
      requires Valid() && c < |deps| && s == Wrap(|got[c]|) && available == Wrap(a)
      requires |got[c]| <= a < |log| && forall d :: d in deps[c] ==> a <= released[d]
      modifies `got, `barriers, `released
      ensures Valid() && values == log[old(|got[c]|)..a + 1]
      ensures got == old(got)[c := log[..a + 1]] && released == old(released)[c := a]
    {
      assert ThisConsumerOk(c);
      values := ReadUpTo(c, s, available, a);
      Release(c, available);
    }

    method ReadUpTo(c: nat, s: Word, available: Word, ghost a: int) returns (values: seq<int>)
      requires Valid() && c < |deps| && s == Wrap(|got[c]|) && available == Wrap(a)
      requires |got[c]| <= a < |log| && forall d :: d in deps[c] ==> a <= released[d]
      modifies `got
      ensures Valid() && values == log[old(|got[c]|)..a + 1]
      ensures |got| == old(|got|) && got == old(got)[c := log[..a + 1]]
    {
      var next := s;
      values := [];
      ghost var start, before := |got[c]|, got;
      var reading := true;
      HasRead(c);
      while reading
        invariant Valid() && start <= |got[c]| <= a + 1
        invariant next == Wrap(|got[c]|) && (reading <==> |got[c]| <= a)
        invariant |got| == |before| && got == before[c := got[c]] && got[c] == log[..|got[c]|]
        invariant values == log[start..|got[c]|]
        decreases a + 1 - |got[c]|
      {
        Slice(log, start, |got[c]|);
        var value;
        value, reading, next := ReadNext(c, next, available, a);
        values := values + [value];
      }
    }

    method ReadNext(c: nat, s: Word, available: Word, ghost a: int) returns (value: int, reading: bool, next: Word)
      requires Valid() && c < |deps| && s == Wrap(|got[c]|) && available == Wrap(a)
      requires |got[c]| <= a < |log| && forall d :: d in deps[c] ==> a <= released[d]
      modifies `got
      ensures Valid() && value == log[old(|got[c]|)] && |got| == old(|got|)
      ensures got == old(got)[c := log[..old(|got[c]|) + 1]]
      ensures (reading <==> |got[c]| <= a) && next == Wrap(|got[c]|)
    {
      AvailableNear(c, a);
      HasRead(c);
      WrapSum(|got[c]|, 1);
      value := ReadItem(c, s);
      reading := s != available;
      var word: int := s;
      next := Wrap(word + 1);
    }

    lemma HasRead(c: nat)
      requires Valid() && c < |deps|
      ensures |got[c]| <= |log| && got == got[c := log[..|got[c]|]]
      ensures |got[c]| < |log| ==> got[c] + [log[|got[c]|]] == log[..|got[c]| + 1]
    {
      assert ThisConsumerOk(c);
      assert got[c] == log[..|got[c]|];
    }

    lemma AvailableNear(c: nat, a: int)
      requires Valid() && c < |deps| && |got[c]| <= a < |log|
      ensures Wrap(|got[c]|) == Wrap(a) <==> |got[c]| == a
    {
      Gating(c);
      assert ThisConsumerOk(c);
      WrapInjective(|got[c]|, a);
    }

    /** A scan by c of the barriers it waits for: history[i] is what they were at its i-th
        load; they have only advanced since. */
    ghost predicate StageScan(c: nat, memory: seq<seq<Word>>, history: seq<seq<int>>)
      requires Graph() && c < |deps| == |released| == |got|
      reads this
    {
      && Snapshots(memory) && OnlyAdvances(history) && |memory| == |history| == |deps[c]|
      && (forall i :: 0 <= i < |memory| ==> Represents(memory[i], history[i]))
      && (forall i, k :: 0 <= i < |memory| && 0 <= k < |memory| ==>
            deps[c][k] < |deps| && |got[c]| - 1 <= history[i][k] <= released[deps[c][k]])
    }

    /** Each load is at, or just before, c's next item or later, and less than a lap ahead. */
    lemma StageLoad(c: nat, memory: seq<seq<Word>>, history: seq<seq<int>>, k: nat)
      requires Valid() && c < |deps| && StageScan(c, memory, history) && k < |memory|
      ensures |got[c]| - 1 <= history[k][k] < |log| && |log| <= |got[c]| + n
      ensures Loads(memory)[k] == Wrap(history[k][k])
      ensures Difference(Loads(memory)[k], Wrap(|got[c]|)) == history[k][k] - |got[c]|
    {
      var d := deps[c][k];
      assert d in deps[c];
      assert ThisConsumerOk(d) && ThisConsumerOk(c);
      Gating(c);
      DifferenceIsTrueDifference(history[k][k], |got[c]|);
    }

    /** `wait_until_published` of a barrier group: what it returns, when its last scan finds
        no stage before c's next item. */
    method WaitForStages(c: nat, s: Word, memory: seq<seq<Word>>, ghost history: seq<seq<int>>) returns (r: Word)
      requires Valid() && c < |deps| && StageScan(c, memory, history) && s == Wrap(|got[c]|)
      requires forall w :: w in Loads(memory) ==> Difference(w, s) >= 0
      ensures exists m :: IsStageMinimum(c, history, r, m)
    {
      r := MinimumSequenceAfter(s, memory);
      ghost var m := StageFacts(c, memory, history, r);
      assert IsStageMinimum(c, history, r, m);
    }

    /** r is the word of m, the least barrier that c's scan loaded: m is at or after c's next
        item, published, and released by all stages before c. */
    ghost predicate IsStageMinimum(c: nat, history: seq<seq<int>>, r: Word, m: int)
      requires c < |deps| == |released| == |got| && Snapshots(history)
      reads this
    {
      && r == Wrap(m) && |got[c]| <= m < |log| && IsMin(m, Loads(history))
      && forall d :: d in deps[c] ==> d < |deps| && m <= released[d]
    }

    lemma StageFacts(c: nat, memory: seq<seq<Word>>, history: seq<seq<int>>, r: Word) returns (m: int)
      requires Valid() && c < |deps| && StageScan(c, memory, history) && r in Loads(memory)
      requires forall w :: w in Loads(memory) ==> 0 <= Difference(w, Wrap(|got[c]|))
      requires forall w :: w in Loads(memory) ==> Difference(r, Wrap(|got[c]|)) <= Difference(w, Wrap(|got[c]|))
      ensures r == Wrap(m) && |got[c]| <= m < |log| && IsMin(m, Loads(history))
      ensures forall d :: d in deps[c] ==> d < |deps| && m <= released[d]
    {
      var words, loads := Loads(memory), Loads(history);
      forall k: nat | k < |loads|
        ensures |got[c]| <= loads[k] < |log| <= |got[c]| + n && words[k] == Wrap(loads[k])
      {
        StageLoad(c, memory, history, k);
        assert words[k] in words;
      }
      m := CircularMinIsMin(words, loads);
      AfterAgreesWithMinimum(|got[c]|, r, words, loads);
      forall d | d in deps[c]
        ensures d < |deps| && m <= released[d]
      {
        var k :| 0 <= k < |deps[c]| && deps[c][k] == d;
        assert loads[k] in loads;
      }
    }

    /** One pass of the loop of a consumer without stages before it: it reads and releases
        all that has been published, if anything. */
    method ConsumeFirst(c: nat, s: Word) returns (values: seq<int>)
      requires Valid() && c < |deps| && deps[c] == [] && s == Wrap(|got[c]|)
      modifies `got, `barriers, `released
      ensures Valid() && old(|got[c]|) <= |log| && values == log[old(|got[c]|)..]
      ensures got == old(got)[c := log]
      ensures released == if old(|got[c]|) < |log| then old(released)[c := |log| - 1] else old(released)
    {
      HasRead(c);
      var available := WaitUntilPublished(c, s);
      values := [];
      assert log[..|log|] == log;
      if Difference(available, s) >= 0 {
        values := ReadBatch(c, s, available, |log| - 1);
      }
    }

    /** And of one with stages before it: it reads and releases what the least advanced of
        them had released. */
    method ConsumeStage(c: nat, s: Word, memory: seq<seq<Word>>, ghost history: seq<seq<int>>)
        returns (values: seq<int>)
      requires Valid() && c < |deps| && StageScan(c, memory, history) && s == Wrap(|got[c]|)
      requires forall w :: w in Loads(memory) ==> Difference(w, s) >= 0
      modifies `got, `barriers, `released
      ensures Valid() && exists m :: (IsMin(m, Loads(history)) && old(|got[c]|) <= m < |log|
                                      && values == log[old(|got[c]|)..m + 1] && got == old(got)[c := log[..m + 1]]
                                      && released == old(released)[c := m])
    {
      var available := WaitForStages(c, s, memory, history);
      ghost var m :| IsStageMinimum(c, history, available, m);
      values := ReadBatch(c, s, available, m);
    }

    /** Consumer c reads its next item, which it has been told is available. */
    method ReadItem(c: nat, s: Word) returns (value: int)
      requires Valid() && c < |deps| && s == Wrap(|got[c]|)
      requires |got[c]| < |log| && forall d :: d in deps[c] ==> |got[c]| <= released[d]
      modifies `got
      ensures Valid() && value == log[old(|got[c]|)] && got == old(got)[c := log[..old(|got[c]|) + 1]]
      ensures BroadcastQueue.Next(n, deps, old(Abs()), BroadcastQueue.Read(c), Abs())
    {
      assert ThisConsumerOk(c);
      HasRead(c);
      value := ring.Get(s, |got[c]|);
      ReadKeeps(n, deps, released, got, log, ring.data[..], c);
      got := got[c := got[c] + [value]];
    }

    /** Consumer c publishes its barrier: it has finished with all it has read. */
    method Release(c: nat, s: Word)
      requires Valid() && c < |deps| && s == Wrap(|got[c]| - 1) && released[c] + 1 < |got[c]|
      modifies `barriers, `released
      ensures Valid() && released == old(released)[c := |got[c]| - 1]
      ensures BroadcastQueue.Next(n, deps, old(Abs()), BroadcastQueue.Release(c), Abs())
    {
      assert ThisConsumerOk(c);
      ReleaseKeeps(n, deps, released, got, log, ring.data[..], c);
      barriers := barriers[c := s];
      released := released[c := |got[c]| - 1];
    }
  }
}
