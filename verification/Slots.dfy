/** From sequence numbers to ring slots: the masking done by
    include/disruptorplus/ring_buffer.hpp and by the published array of
    include/disruptorplus/multi_threaded_claim_strategy.hpp, and the ranges of
    include/disruptorplus/sequence_range.hpp. */
module Slots {
  import opened Sequences

  function Pow2(k: nat): (r: nat)
    ensures r > 0
  {
    if k == 0 then 1 else 2 * Pow2(k - 1)
  }

  ghost predicate IsPow2(n: int) {
    exists k: nat :: n == Pow2(k)
  }

  /** Bitwise `&` of two non-negative integers, bit by bit. */
  function BitAnd(a: nat, b: nat): nat
    decreases a
  {
    if a == 0 || b == 0 then 0
    else (if a % 2 == 1 && b % 2 == 1 then 1 else 0) + 2 * BitAnd(a / 2, b / 2)
  }

  function Slot(n: int, s: int): (i: int)
    requires n > 0
    ensures 0 <= i < n
  {
    s % n
  }

  /** `seq & (size - 1)` is the sequence modulo the size, for every power of two. */
  lemma {:induction false} MaskIsMod(s: nat, k: nat)
    ensures BitAnd(s, Pow2(k) - 1) == s % Pow2(k)
  {
    if k > 0 {
      var h := Pow2(k - 1);
      MaskIsMod(s / 2, k - 1);
      BitAndOdd(s, h - 1);
      DoubleMod(s, h);
    }
  }

  lemma BitAndOdd(s: nat, b: nat)
    ensures BitAnd(s, 2 * b + 1) == 2 * BitAnd(s / 2, b) + s % 2
  {
  }

  lemma DoubleMod(s: nat, h: int)
    requires h > 0
    ensures s % (2 * h) == 2 * (s / 2 % h) + s % 2
  {
    var q, r := s / 2 / h, s / 2 % h;
    assert s / 2 == h * q + r;
    assert (2 * h) * q == 2 * (h * q);
    ModOf(2 * h, q, 2 * r + s % 2, s);
  }

  lemma {:induction false} MulGap(n: int, a: int, b: int)
    requires n > 0 && a < b
    ensures n * a + n <= n * b
    decreases b - a
  {
    assert n * b == n * (b - 1) + n;
    if a < b - 1 {
      MulGap(n, a, b - 1);
    }
  }

  lemma ModOf(n: int, q: int, r: int, x: int)
    requires n > 0 && 0 <= r < n && x == n * q + r
    ensures x % n == r && x / n == q
  {
    var q' := x / n;
    assert x == n * q' + x % n;
    if q' < q {
      MulGap(n, q', q);
    } else if q < q' {
      MulGap(n, q, q');
    }
  }

  /** The constructors' assertion `size > 0 && (size & (size - 1)) == 0` accepts exactly
      the powers of two. */
  lemma {:induction false} ConstructorAcceptsPowersOfTwo(n: nat)
    ensures n > 0 && BitAnd(n, n - 1) == 0 <==> IsPow2(n)
  {
    if n == 1 {
      assert Pow2(0) == 1;
    } else if n > 1 {
      ConstructorAcceptsPowersOfTwo(n / 2);
      if n % 2 == 0 {
        assert (n - 1) / 2 == n / 2 - 1 && (n - 1) % 2 == 1;
        if IsPow2(n / 2) {
          var k: nat :| n / 2 == Pow2(k);
          assert n == Pow2(k + 1);
        }
        if IsPow2(n) {
          var k: nat :| n == Pow2(k);
          assert k > 0;
          assert n / 2 == Pow2(k - 1);
        }
      } else {
        assert (n - 1) / 2 == n / 2 && (n - 1) % 2 == 0;
        BitAndSelf(n / 2);
      }
    }
  }

  lemma BitAndSelf(a: nat)
    ensures BitAnd(a, a) == a
  {
  }

  /** A power of two divides every larger one. */
  lemma {:induction false} Pow2Divides(j: nat, k: nat) returns (q: nat)
    requires j <= k
    ensures Pow2(k) == Pow2(j) * q && q > 0
    decreases k
  {
    if j == k {
      q := 1;
    } else {
      var q' := Pow2Divides(j, k - 1);
      q := 2 * q';
    }
  }

  lemma Pow2Order(j: nat, k: nat)
    requires j <= k
    ensures Pow2(j) <= Pow2(k)
    decreases k - j
  {
  }

  /** Reducing modulo a multiple of n first does not change the slot. */
  lemma SlotOfReduced(n: int, q: int, s: int)
    requires n > 0 && q > 0
    ensures n * q > 0 && Slot(n, s % (n * q)) == Slot(n, s)
  {
    assert n * q > 0;
    var m := n * q;
    var r := s % m;
    assert s == m * (s / m) + r;
    var a, b := r / n, r % n;
    assert s == n * (q * (s / m) + a) + b by {
      assert m * (s / m) == n * (q * (s / m));
      assert n * (q * (s / m) + a) == n * (q * (s / m)) + n * a;
    }
    ModOf(n, q * (s / m) + a, b, s);
  }

  lemma WordIsPow2()
    ensures WORD == Pow2(64)
  {
    assert Pow2(8) == 256;
    assert Pow2(16) == 256 * Pow2(8);
    assert Pow2(24) == 256 * Pow2(16);
    assert Pow2(32) == 256 * Pow2(24);
    assert Pow2(40) == 256 * Pow2(32);
    assert Pow2(48) == 256 * Pow2(40);
    assert Pow2(56) == 256 * Pow2(48);
    assert Pow2(64) == 256 * Pow2(56);
  }

  /** The ring and the published array agree on the slot of every sequence, on words as
      on ideal sequence numbers, even when `size_t` is narrower than `sequence_t`. */
  lemma SlotSurvivesWrapAndTruncation(k: nat, bits: nat, s: int)
    requires k <= bits <= 64
    ensures BitAnd(Wrap(s), Pow2(k) - 1) == Slot(Pow2(k), s)
    ensures BitAnd(Wrap(s) % Pow2(bits), Pow2(k) - 1) == Slot(Pow2(k), s)
  {
    WordIsPow2();
    var q := Pow2Divides(k, 64);
    SlotOfReduced(Pow2(k), q, s);
    MaskIsMod(Wrap(s), k);
    var q' := Pow2Divides(k, bits);
    SlotOfReduced(Pow2(k), q', Wrap(s));
    MaskIsMod(Wrap(s) % Pow2(bits), k);
  }

  /** A word and the sequence number it stands for share a slot. */
  lemma SlotOfWord(n: int, s: int)
    requires IsPow2(n) && n < WORD
    ensures n > 0 && Slot(n, Wrap(s)) == Slot(n, s)
  {
    var k: nat :| n == Pow2(k);
    WordIsPow2();
    if k > 64 {
      Pow2Order(64, k);
    }
    var q := Pow2Divides(k, 64);
    SlotOfReduced(n, q, s);
  }

  /** Sequences in one slot are a whole number of laps apart. */
  lemma SameSlot(n: int, s: int, t: int)
    requires n > 0 && Slot(n, s) == Slot(n, t) && s < t
    ensures s + n <= t
  {
    var a, b := s / n, t / n;
    assert s == n * a + Slot(n, s) && t == n * b + Slot(n, t);
    if a < b {
      MulGap(n, a, b);
    } else if b < a {
      MulGap(n, b, a);
    }
  }

  lemma SlotPeriod(n: int, s: int)
    requires n > 0
    ensures Slot(n, s - n) == Slot(n, s)
  {
    ModOf(n, s / n - 1, s % n, s - n);
  }

  lemma DistinctSlots(n: int, s: int, t: int)
    requires IsPow2(n) && n < WORD && s < t < s + n
    ensures n > 0 && Slot(n, Wrap(s)) != Slot(n, Wrap(t))
  {
    SlotOfWord(n, s);
    SlotOfWord(n, t);
    if Slot(n, s) == Slot(n, t) {
      SameSlot(n, s, t);
    }
  }

  /** A range of sequence numbers, which may wrap. */
  datatype SequenceRange = SequenceRange(first: Word, size: nat) {
    function End(): Word { Wrap(first + size) }
    function Last(): Word { Wrap(End() - 1) }
    function At(index: nat): Word { Wrap(first + index) }
  }

  /** A range of at most n sequences visits distinct slots, its last element is `Last`,
      and it ends where the next range begins, wherever it wraps. */
  lemma RangeHitsDistinctSlots(n: int, r: SequenceRange, first: int)
    requires IsPow2(n) && n < WORD && r.size <= n && r.first == Wrap(first)
    ensures n > 0
    ensures forall i, j :: 0 <= i < j < r.size ==> Slot(n, r.At(i)) != Slot(n, r.At(j))
    ensures r.size > 0 ==> r.At(r.size - 1) == r.Last()
    ensures forall i: nat :: i <= r.size ==> r.At(i) == Wrap(first + i)
    ensures r.End() == r.At(r.size)
  {
    assert n > 0;
    forall i: nat | i <= r.size
      ensures r.At(i) == Wrap(first + i)
    {
      WrapSum(first, i);
    }
    if r.size > 0 { LastOfRange(r, first); }
    forall i, j | 0 <= i < j < r.size
      ensures Slot(n, r.At(i)) != Slot(n, r.At(j))
    {
      DistinctSlots(n, first + i, first + j);
    }
  }

  lemma LastOfRange(r: SequenceRange, first: int)
    requires r.first == Wrap(first) && r.size > 0
    ensures r.At(r.size - 1) == r.Last()
  {
  }
}
