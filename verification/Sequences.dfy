/** Sequence numbers as 64-bit words, and the two scans of an array of shared
    sequence numbers (include/disruptorplus/sequence.hpp). */
module Sequences {

  const WORD: int := 0x1_0000_0000_0000_0000
  const HALF: int := 0x8000_0000_0000_0000

  type Word = w: int | 0 <= w < WORD

  /** The conversion of an integer to `sequence_t`. */
  function Wrap(x: int): Word { x % WORD }

  /** The conversion of an integer to `sequence_diff_t` (two's complement). */
  function Signed(x: int): int {
    if Wrap(x) < HALF then Wrap(x) else Wrap(x) - WORD
  }

  /** `difference(a, b)`. */
  function Difference(a: Word, b: Word): int { Signed(a - b) }

  function Min(a: int, b: int): int { if b < a then b else a }

  /** Adding a multiple of the modulus changes nothing. */
  lemma WrapPeriod(x: int, k: int)
    ensures Wrap(x + k * WORD) == Wrap(x)
  {
  }

  lemma WrapSum(x: int, y: int)
    ensures Wrap(Wrap(x) + y) == Wrap(x + y)
  {
  }

  lemma WrapSub(a: int, b: int)
    ensures Wrap(Wrap(a) - Wrap(b)) == Wrap(a - b)
  {
  }

  /** Two integers less than 2^64 apart are the same word only when they are equal. */
  lemma WrapInjective(a: int, b: int)
    requires -WORD < a - b < WORD
    ensures Wrap(a) == Wrap(b) <==> a == b
  {
  }

  /** `difference` on words is the true difference exactly when that fits in 63 bits
      and a sign: the spread condition of sequence.hpp is what makes it an order. */
  lemma DifferenceIsTrueDifference(a: int, b: int)
    ensures Difference(Wrap(a), Wrap(b)) == a - b <==> -HALF <= a - b < HALF
  {
  }

  /** `difference` is undone by addition, whatever the two words are. */
  lemma DifferenceAddsBack(a: Word, b: Word)
    ensures Wrap(Difference(a, b) + b) == a
  {
  }

  // ------------------------------------------------------------------
  // The scans.  Other threads store to the array between two loads, so the
  // argument `memory` holds one snapshot of the array per load: load i reads
  // memory[i][i].
  // ------------------------------------------------------------------

  predicate Snapshots<T>(memory: seq<seq<T>>) {
    |memory| > 0 && forall i :: 0 <= i < |memory| ==> |memory[i]| == |memory|
  }

  function Loads<T>(memory: seq<seq<T>>): (r: seq<T>)
    requires Snapshots(memory)
  {
    seq(|memory|, i requires 0 <= i < |memory| => memory[i][i])
  }

  /** What the loop of `minimum_sequence` computes from the words it loads. */
  ghost function CircularMin(loads: seq<Word>): Word
    requires |loads| > 0
  {
    if |loads| == 1 then loads[0] else
      var m := CircularMin(loads[..|loads| - 1]);
      if Difference(loads[|loads| - 1], m) < 0 then loads[|loads| - 1] else m
  }

  method MinimumSequence(memory: seq<seq<Word>>) returns (minimum: Word)
    requires Snapshots(memory)
    ensures minimum == CircularMin(Loads(memory))
  {
    var count := |memory|;
    ghost var loads := Loads(memory);
    minimum := memory[0][0];
    var i := 1;
    while i < count
      invariant 1 <= i <= count
      invariant minimum == CircularMin(loads[..i])
    {
      var s := memory[i][i];
      assert loads[..i + 1][..i] == loads[..i];
      if Difference(s, minimum) < 0 {
        minimum := s;
      }
      i := i + 1;
    }
    assert loads[..count] == loads;
  }

  method MinimumSequenceAfter(minimum: Word, memory: seq<seq<Word>>) returns (r: Word)
    requires Snapshots(memory)
    // one of the words read
    ensures r in Loads(memory)
    // it precedes `minimum` exactly when some word does
    ensures Difference(r, minimum) < 0 <==> exists w :: w in Loads(memory) && Difference(w, minimum) < 0
    // then it is the first such word, at which the scan stops
    ensures Difference(r, minimum) < 0 ==>
              exists k :: 0 <= k < |memory| && r == Loads(memory)[k]
                          && forall j :: 0 <= j < k ==> Difference(Loads(memory)[j], minimum) >= 0
    // and otherwise it is the least advanced word, seen from `minimum`
    ensures Difference(r, minimum) >= 0 ==>
              forall w :: w in Loads(memory) ==> Difference(r, minimum) <= Difference(w, minimum)
  {
    var count := |memory|;
    ghost var loads := Loads(memory);
    ghost var at := 0;
    var minDelta := Difference(memory[0][0], minimum);
    var i := 1;
    while i < count && minDelta >= 0
      invariant 1 <= i <= count && 0 <= at < i
      invariant minDelta == Difference(loads[at], minimum)
      invariant forall j :: 0 <= j < i - 1 ==> Difference(loads[j], minimum) >= 0
      invariant minDelta < 0 ==> at == i - 1
      invariant forall j :: 0 <= j < i ==> minDelta <= Difference(loads[j], minimum)
    {
      var s := memory[i][i];
      if Difference(s, minimum) < minDelta {
        minDelta, at := Difference(s, minimum), i;
      }
      i := i + 1;
    }
    r := Wrap(minDelta + minimum);
    DifferenceAddsBack(loads[at], minimum);
    assert r == loads[at];
  }

  // ------------------------------------------------------------------
  // What the scans mean for the ideal, unbounded sequence numbers.
  // ------------------------------------------------------------------

  ghost predicate LowerBound(m: int, xs: seq<int>) {
    forall x :: x in xs ==> m <= x
  }

  ghost predicate IsMin(m: int, xs: seq<int>) {
    m in xs && LowerBound(m, xs)
  }

  ghost predicate Represents(words: seq<Word>, xs: seq<int>) {
    |words| == |xs| && forall i :: 0 <= i < |xs| ==> words[i] == Wrap(xs[i])
  }

  ghost predicate Spread(xs: seq<int>, bound: int) {
    forall x, y :: x in xs && y in xs ==> x - y < bound
  }

  /** With a spread below 2^63 `minimum_sequence` finds the true minimum. */
  lemma {:induction false} CircularMinIsMin(words: seq<Word>, xs: seq<int>) returns (m: int)
    requires |xs| > 0 && Represents(words, xs) && Spread(xs, HALF)
    ensures IsMin(m, xs) && CircularMin(words) == Wrap(m)
  {
    var k := |xs| - 1;
    m := xs[0];
    if k > 0 {
      assert xs == xs[..k] + [xs[k]];
      assert forall x :: x in xs[..k] ==> x in xs;
      m := CircularMinIsMin(words[..k], xs[..k]);
      assert m in xs && xs[k] in xs;
      DifferenceIsTrueDifference(xs[k], m);
      if xs[k] < m {
        m := xs[k];
      }
    }
  }

  /** Under the same spread `minimum_sequence_after` agrees with `minimum_sequence`
      whenever it does not stop early. */
  lemma AfterAgreesWithMinimum(minimum: int, r: Word, words: seq<Word>, xs: seq<int>)
    requires |xs| > 0 && Represents(words, xs) && Spread(xs, HALF)
    requires forall x :: x in xs ==> 0 <= x - minimum < HALF
    requires r in words && forall w :: w in words ==> Difference(r, Wrap(minimum)) <= Difference(w, Wrap(minimum))
    ensures r == CircularMin(words)
  {
    var m := CircularMinIsMin(words, xs);
    var i :| 0 <= i < |xs| && words[i] == r;
    var j :| 0 <= j < |xs| && xs[j] == m;
    DifferenceIsTrueDifference(xs[i], minimum);
    DifferenceIsTrueDifference(xs[j], minimum);
    assert words[j] in words;
    assert xs[i] in xs;
  }

  ghost predicate OnlyAdvances(history: seq<seq<int>>) {
    Snapshots(history) &&
    forall i, j, k :: 0 <= i <= j < |history| && 0 <= k < |history| ==> history[i][k] <= history[j][k]
  }

  /** A scan that is not atomic: the minimum of the loads lies between the true minimum
      when the scan began and the true minimum when it ended, and is a lower bound on
      every barrier at the end (hence ever after, as barriers only advance). */
  lemma NonAtomicScanIsBracketed(history: seq<seq<int>>, m: int, before: int, after: int)
    requires OnlyAdvances(history)
    requires IsMin(m, Loads(history))
    requires IsMin(before, history[0]) && IsMin(after, history[|history| - 1])
    ensures before <= m <= after
    ensures LowerBound(m, history[|history| - 1])
  {
    var n := |history|;
    var loads, last := Loads(history), history[n - 1];
    forall k | 0 <= k < n
      ensures m <= last[k] && before <= loads[k]
    {
      assert loads[k] in loads;
      assert loads[k] <= last[k];
      assert history[0][k] in history[0];
      assert history[0][k] <= loads[k];
    }
    var i :| 0 <= i < n && loads[i] == m;
  }
}
