/** The storage: the ring of items (include/disruptorplus/ring_buffer.hpp) and the array
    of published sequences of the multi-producer strategy
    (include/disruptorplus/multi_threaded_claim_strategy.hpp), updated in place. */
module RingBuffer {
  import opened Sequences
  import opened Slots

  lemma MaskOfWord(n: nat, w: Word)
    requires IsPow2(n) && n < WORD
    ensures n > 0 && BitAnd(w, n - 1) == Slot(n, w)
  {
    var k: nat :| n == Pow2(k);
    MaskIsMod(w, k);
  }

  class Ring {
    const mask: nat
    const data: array<int>

    ghost predicate Valid() {
      0 < data.Length < WORD && IsPow2(data.Length) && mask == data.Length - 1
    }

    constructor (size: nat)
      requires size < WORD && size > 0 && BitAnd(size, size - 1) == 0
      ensures Valid() && fresh(data) && data.Length == size
    {
      ConstructorAcceptsPowersOfTwo(size);
      mask := size - 1;
      data := new int[size];
    }

    /** `operator[]`: the slot a sequence is kept in, for any ideal number it stands for. */
    function Index(w: Word, ghost x: int): (i: nat)
      requires Valid() && w == Wrap(x)
      ensures i < data.Length && i == Slot(data.Length, x)
    {
      MaskOfWord(data.Length, w);
      SlotOfWord(data.Length, x);
      BitAnd(w, mask)
    }

    method Set(w: Word, ghost x: int, value: int)
      requires Valid() && w == Wrap(x)
      modifies data
      ensures data[..] == old(data[..])[Slot(data.Length, x) := value]
    {
      data[Index(w, x)] := value;
    }

    method Get(w: Word, ghost x: int) returns (value: int)
      requires Valid() && w == Wrap(x)
      ensures value == data[Slot(data.Length, x)]
    {
      value := data[Index(w, x)];
    }
  }

  class PublishedArray {
    const indexMask: nat
    const words: array<Word>

    ghost predicate Valid() {
      0 < words.Length < WORD && IsPow2(words.Length) && indexMask == words.Length - 1
    }

    /** The slot of w holds w itself. */
    ghost predicate Published(w: Word)
      requires Valid()
      reads words
    {
      words[Slot(words.Length, w)] == w
    }

    /** Fills the array with the sequences of the lap before 0. */
    constructor (size: nat)
      requires size < WORD && size > 0 && BitAnd(size, size - 1) == 0
      ensures Valid() && fresh(words) && words.Length == size
      ensures forall i :: 0 <= i < size ==> words[i] == Wrap(i - size)
    {
      ConstructorAcceptsPowersOfTwo(size);
      indexMask := size - 1;
      words := new Word[size];
      new;
      var i := 0;
      while i < size
        invariant 0 <= i <= size
        invariant forall j :: 0 <= j < i ==> words[j] == Wrap(j - size)
      {
        words[i] := Wrap(i - size);
        i := i + 1;
      }
    }

    method IsPublished(w: Word) returns (b: bool)
      requires Valid()
      ensures b <==> Published(w)
    {
      MaskOfWord(words.Length, w);
      b := words[BitAnd(w, indexMask)] == w;
    }

    /** `set_published`; the source asserts the condition required here. */
    method SetPublished(w: Word)
      requires Valid() && words[Slot(words.Length, w)] == Wrap(w - words.Length)
      modifies words
      ensures words[..] == old(words[..])[Slot(words.Length, w) := w]
    {
      MaskOfWord(words.Length, w);
      words[BitAnd(w, indexMask)] := w;
    }

    /** One of the first count sequences of the range is kept in word s. */
    ghost predicate Hits(range: SequenceRange, count: nat, s: int)
      requires words.Length > 0 && count <= range.size
    {
      exists i: nat :: i < count && s == Slot(words.Length, range.At(i))
    }

    /** `publish(range)`: every sequence of the range becomes published, nothing else
        changes, and the assertion of `set_published` holds in every iteration. */
    method Publish(range: SequenceRange)
      requires Valid() && range.size <= words.Length
      requires forall i: nat :: i < range.size ==>
                 words[Slot(words.Length, range.At(i))] == Wrap(range.At(i) - words.Length)
      modifies words
      ensures forall i: nat :: i < range.size ==> Published(range.At(i))
      ensures forall s :: 0 <= s < words.Length && !Hits(range, range.size, s) ==> words[s] == old(words[s])
    {
      RangeHitsDistinctSlots(words.Length, range, range.first);
      var i := 0;
      while i < range.size
        invariant 0 <= i <= range.size
        invariant forall j: nat :: j < i ==> Published(range.At(j))
        invariant forall j: nat :: i <= j < range.size ==>
                    words[Slot(words.Length, range.At(j))] == Wrap(range.At(j) - words.Length)
        invariant forall s :: 0 <= s < words.Length && !Hits(range, i, s) ==> words[s] == old(words[s])
      {
        SetPublished(range.At(i));
        i := i + 1;
      }
    }

    /** `last_published_after` on a frozen array: the end of the longest run of published
        sequences after lastKnown, found within n iterations. */
    method LastPublishedAfter(lastKnown: Word) returns (last: Word, length: nat)
      requires Valid()
      ensures length <= words.Length && last == After(lastKnown, length)
      ensures forall i: nat :: 1 <= i <= length ==> Published(After(lastKnown, i))
      ensures !Published(After(lastKnown, length + 1))
    {
      last, length := lastKnown, 0;
      var next := After(lastKnown, 1);
      var more := IsPublished(next);
      while more
        invariant last == After(lastKnown, length) && next == After(lastKnown, length + 1)
        invariant more <==> Published(next)
        invariant length <= words.Length
        invariant forall i: nat :: 1 <= i <= length ==> Published(After(lastKnown, i))
        decreases words.Length - length
      {
        RunIsShort(words.Length, lastKnown);
        last, length := next, length + 1;
        AfterNext(lastKnown, length);
        next := After(next, 1);
        more := IsPublished(next);
      }
    }
  }

  function After(w: Word, i: nat): Word { Wrap(w + i) }

  lemma AfterNext(w: Word, i: nat)
    ensures After(After(w, i), 1) == After(w, i + 1)
  {
  }

  /** The sequence a whole lap after a published one is not published: it shares its slot. */
  lemma RunIsShort(n: int, w: Word)
    requires IsPow2(n) && 0 < n < WORD
    ensures Slot(n, After(w, n + 1)) == Slot(n, After(w, 1)) && After(w, n + 1) != After(w, 1)
  {
    SlotOfWord(n, w + n + 1);
    SlotOfWord(n, w + 1);
    SlotPeriod(n, w + n + 1);
    WrapInjective(w + n + 1, w + 1);
  }
}
