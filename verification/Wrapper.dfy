/** The malloc family over the bump allocator, in the 64-bit arithmetic of size_t. */
module Wrapper {
  import opened BumpAllocator
  import opened Division

  const WORD: nat := 0x1_0000_0000_0000_0000

  type Size = n: nat | n < WORD

  const NULL: nat := 0
  const SIZEOF_DOUBLE: nat := 8

  // ---- bits ----

  /** x & y */
  function And(x: nat, y: nat): nat {
    if x == 0 || y == 0 then 0 else 2 * And(x / 2, y / 2) + (if x % 2 == 1 && y % 2 == 1 then 1 else 0)
  }

  /** The test the code makes for a power of two. */
  predicate IsPowerOfTwo(a: nat) {
    a != 0 && And(a, a - 1) == 0
  }

  function Bit(x: nat, j: nat): bool {
    if j == 0 then x % 2 == 1 else Bit(x / 2, j - 1)
  }

  lemma {:induction false} ZeroHasNoBits(j: nat)
    ensures !Bit(0, j)
  {
    if j > 0 {
      ZeroHasNoBits(j - 1);
    }
  }

  /** Each bit of x & y is set exactly when it is set in both. */
  lemma {:induction false} AndBits(x: nat, y: nat, j: nat)
    ensures Bit(And(x, y), j) <==> Bit(x, j) && Bit(y, j)
  {
    if x == 0 || y == 0 {
      ZeroHasNoBits(j);
    } else if j > 0 {
      AndBits(x / 2, y / 2, j - 1);
      assert And(x, y) / 2 == And(x / 2, y / 2);
    }
  }

  lemma {:induction false} AndSelf(x: nat)
    ensures And(x, x) == x
  {
    if x > 0 {
      AndSelf(x / 2);
    }
  }

  lemma HalfOfPower(a: nat)
    requires IsPowerOfTwo(a) && a > 1
    ensures a % 2 == 0 && IsPowerOfTwo(a / 2)
  {
    AndSelf(a / 2);
    assert 2 * ((a - 1) / 2) == a - 2 + a % 2;
  }

  function Pow2(k: nat): (p: nat)
    ensures p > 0
  {
    if k == 0 then 1 else 2 * Pow2(k - 1)
  }

  lemma {:induction false} PowersPass(k: nat)
    ensures IsPowerOfTwo(Pow2(k))
  {
    if k > 0 {
      PowersPass(k - 1);
      var b := Pow2(k - 1);
      assert 2 * b - 1 == 2 * (b - 1) + 1 && (2 * b - 1) / 2 == b - 1 && (2 * b) / 2 == b;
      assert And(2 * b, 2 * b - 1) == 2 * And(b, b - 1);
    }
  }

  lemma {:induction false} OnlyPowersPass(a: nat) returns (k: nat)
    requires IsPowerOfTwo(a)
    ensures a == Pow2(k)
  {
    if a == 1 {
      k := 0;
    } else {
      HalfOfPower(a);
      k := OnlyPowersPass(a / 2);
      k := k + 1;
    }
  }

  ghost predicate PowerOfTwo(a: nat) {
    exists k: nat :: a == Pow2(k)
  }

  /** The test accepts the powers of two and nothing else. */
  lemma {:induction false} TestIsExact(a: nat)
    ensures IsPowerOfTwo(a) <==> PowerOfTwo(a)
  {
    if IsPowerOfTwo(a) {
      var k := OnlyPowersPass(a);
    }
    if PowerOfTwo(a) {
      var k: nat :| a == Pow2(k);
      PowersPass(k);
    }
  }

  /** Masking with one less than a power of two takes the remainder. */
  lemma {:induction false} MaskIsRemainder(x: nat, a: nat)
    requires IsPowerOfTwo(a)
    ensures And(x, a - 1) == x % a
  {
    if a == 1 {
      assert x % 1 == 0;
    } else {
      HalfOfPower(a);
      var b := a / 2;
      MaskIsRemainder(x / 2, b);
      assert a - 1 == 2 * (b - 1) + 1 && (a - 1) / 2 == b - 1;
      DoubledRemainder(x, b);
    }
  }

  /** y & ~m for m = a - 1, a power of two: clear the low bits. */
  function ClearLow(y: nat, a: nat): nat
    requires a > 0
  {
    var low := And(y, a - 1);
    if low <= y then y - low else 0
  }

  /** (p + alignment - 1) & ~(alignment - 1), where the sum may wrap around */
  function AlignUp(p: nat, alignment: nat): nat
    requires alignment > 0
  {
    ClearLow((p + alignment - 1) % WORD, alignment)
  }

  lemma ClearLowIsAligned(y: nat, a: nat)
    requires IsPowerOfTwo(a)
    ensures ClearLow(y, a) % a == 0 && y < ClearLow(y, a) + a && ClearLow(y, a) <= y
  {
    MaskIsRemainder(y, a);
    RemainderRemoved(y, a);
  }

  lemma AlignUpIsAligned(p: nat, a: nat)
    requires IsPowerOfTwo(a)
    ensures AlignUp(p, a) % a == 0
    ensures p + a <= WORD ==> p <= AlignUp(p, a) < p + a
  {
    ClearLowIsAligned((p + a - 1) % WORD, a);
  }

  // ---- calloc ----

  /** The size CUSTOM_CALLOC passes on, or None when it detects an overflow. */
  datatype Request = Overflow | Bytes(n: nat)

  function CallocRequest(nelem: Size, elsize: Size): Request {
    var n := nelem * elsize % WORD;
    if elsize != 0 && nelem != n / elsize then Overflow else Bytes(n)
  }

  /** calloc asks malloc for memory exactly when the product fits a word, and then for the product. */
  lemma {:induction false} CallocChecksExactly(nelem: Size, elsize: Size)
    ensures CallocRequest(nelem, elsize) ==
              if nelem * elsize < WORD then Bytes(nelem * elsize) else Overflow
  {
    if elsize != 0 {
      if nelem * elsize < WORD {
        QuotientUnique(nelem * elsize, elsize, nelem, 0);
      } else {
        QuotientBelow(nelem * elsize % WORD, elsize);
      }
    }
  }

  // ---- malloc and memalign ----

  /** CUSTOM_MALLOC refuses sizes with the top bit set. */
  method CustomMalloc(h: Allocator, pid: nat, size: Size) returns (p: nat)
    requires h.Valid()
    modifies h.subheaps
    ensures size < WORD / 2 ==> p == old(h.subheaps[Slot(pid)]) && h.subheaps[..] == Bumped(old(h.subheaps[..]), pid, size)
    ensures size >= WORD / 2 ==> p == NULL && h.subheaps[..] == old(h.subheaps[..])
  {
    if size >= WORD / 2 {
      return NULL;
    }
    p := h.Xxmalloc(pid, size);
  }

  /** CUSTOM_CALLOC, up to the zeroing: a product that fits a word is a malloc of it, any other is
      refused before malloc is asked. */
  method CustomCalloc(h: Allocator, pid: nat, nelem: Size, elsize: Size) returns (p: nat)
    requires h.Valid()
    modifies h.subheaps
    ensures nelem * elsize < WORD / 2 ==>
              p == old(h.subheaps[Slot(pid)]) && h.subheaps[..] == Bumped(old(h.subheaps[..]), pid, nelem * elsize)
    ensures nelem * elsize >= WORD / 2 ==> p == NULL && h.subheaps[..] == old(h.subheaps[..])
  {
    CallocChecksExactly(nelem, elsize);
    match CallocRequest(nelem, elsize) {
      case Overflow => p := NULL;
      case Bytes(n) => p := CustomMalloc(h, pid, n);
    }
  }

  /** A block of `size` bytes at `r` lies in the memory this process was given between the two values
      of its pointer. */
  predicate Inside(r: nat, size: nat, before: nat, after: nat) {
    before <= r && r + size <= after
  }

  lemma RoundUpCovers(x: nat)
    ensures x <= RoundUp(x, MIN_ALIGNED_SIZE)
  {
  }

  lemma AlignedInside(p: nat, a: nat, size: nat)
    requires IsPowerOfTwo(a) && p + a <= WORD
    ensures Inside(AlignUp(p, a), size, p, p + RoundUp(size + 2 * a, MIN_ALIGNED_SIZE))
  {
    AlignUpIsAligned(p, a);
    RoundUpCovers(size + 2 * a);
  }

  lemma AlignedNull(a: nat)
    requires IsPowerOfTwo(a) && a <= WORD
    ensures AlignUp(NULL, a) == NULL
  {
    AlignUpIsAligned(NULL, a);
    RemainderIsSelf(AlignUp(NULL, a), a);
  }

  function Widened(size: Size, alignment: Size): (n: Size)
    ensures size + 2 * alignment < WORD ==> n == size + 2 * alignment
  {
    (size + 2 * alignment) % WORD
  }

  /** Ask for two alignments more than needed and return the first aligned address. */
  method AlignedBlock(h: Allocator, pid: nat, alignment: Size, size: Size) returns (r: nat)
    requires h.Valid() && IsPowerOfTwo(alignment)
    modifies h.subheaps
    ensures Widened(size, alignment) < WORD / 2 ==>
              r == AlignUp(old(h.subheaps[Slot(pid)]), alignment)
              && h.subheaps[..] == Bumped(old(h.subheaps[..]), pid, Widened(size, alignment))
    ensures Widened(size, alignment) >= WORD / 2 ==> r == NULL && h.subheaps[..] == old(h.subheaps[..])
  {
    var p := CustomMalloc(h, pid, Widened(size, alignment));
    AlignedNull(alignment);
    r := AlignUp(p, alignment);
  }

  /** The first block does not lie below the alignment, so that a second one is asked for. */
  predicate TwoBlocks(p: nat, size: nat, alignment: nat) {
    alignment != SIZEOF_DOUBLE && alignment <= p && size < WORD / 2
  }

  /** The first block ends where no address computation wraps around. */
  predicate NoWrap(p: nat, size: nat, alignment: nat) {
    size + 2 * alignment < WORD / 2 && p + RoundUp(size, MIN_ALIGNED_SIZE) + alignment <= WORD
  }

  /** The masked test of the shortcut says that the block lies below the alignment. */
  lemma {:induction false} ShortcutTest(p: nat, a: nat)
    requires IsPowerOfTwo(a)
    ensures And(p, a - 1) == p <==> p < a
    ensures p < a ==> (p % a == 0 <==> p == 0)
  {
    MaskIsRemainder(p, a);
    RemainderIsSelf(p, a);
  }

  /** The larger block starts where the first one ends. */
  lemma SecondBlock(c: Cursors, pid: nat, alignment: Size, size: Size)
    requires IsPowerOfTwo(alignment)
    ensures var p, q := c[Slot(pid)], Bumped(c, pid, size)[Slot(pid)];
            var after := Bumped(Bumped(c, pid, size), pid, Widened(size, alignment))[Slot(pid)];
            && AlignUp(q, alignment) % alignment == 0
            && (NoWrap(p, size, alignment) ==> Widened(size, alignment) < WORD / 2 && Inside(AlignUp(q, alignment), size, p, after))
  {
    var p, q := c[Slot(pid)], Bumped(c, pid, size)[Slot(pid)];
    AlignUpIsAligned(q, alignment);
    if NoWrap(p, size, alignment) {
      AlignedInside(q, alignment, size);
    }
  }

  lemma FirstBlock(c: Cursors, pid: nat, size: Size)
    ensures Inside(c[Slot(pid)], size, c[Slot(pid)], Bumped(c, pid, size)[Slot(pid)])
  {
    RoundUpCovers(size);
  }

  /** Try a block of just the requested size, and otherwise get a larger one. */
  method ShortcutOrBlock(h: Allocator, pid: nat, alignment: Size, size: Size) returns (r: nat)
    requires h.Valid() && IsPowerOfTwo(alignment)
    modifies h.subheaps
    ensures size >= WORD / 2 ==> r == NULL && h.subheaps[..] == old(h.subheaps[..])
    ensures size < WORD / 2 && old(h.subheaps[Slot(pid)]) < alignment ==>
              r == old(h.subheaps[Slot(pid)]) && h.subheaps[..] == Bumped(old(h.subheaps[..]), pid, size)
    ensures size < WORD / 2 && alignment <= old(h.subheaps[Slot(pid)]) ==>
              var first := Bumped(old(h.subheaps[..]), pid, size);
              if Widened(size, alignment) < WORD / 2 then
                r == AlignUp(first[Slot(pid)], alignment) && h.subheaps[..] == Bumped(first, pid, Widened(size, alignment))
              else
                r == NULL && h.subheaps[..] == first
    ensures size < WORD / 2 ==> (r % alignment == 0 <==> !(0 < old(h.subheaps[Slot(pid)]) < alignment))
    ensures NoWrap(old(h.subheaps[Slot(pid)]), size, alignment) ==>
              Inside(r, size, old(h.subheaps[Slot(pid)]), h.subheaps[..][Slot(pid)])
  {
    ghost var before := h.subheaps[..];
    var p := CustomMalloc(h, pid, size);
    FirstBlock(before, pid, size);
    ShortcutTest(p, alignment);
    if And(p, alignment - 1) == p {
      return p;
    }
    SecondBlock(before, pid, alignment, size);
    r := AlignedBlock(h, pid, alignment, size);
    RemainderIsSelf(NULL, alignment);
  }

  /** Every pointer of the bump allocator is aligned for a double. */
  lemma DoubleAligned(p: nat)
    requires p % MIN_ALIGNED_SIZE == 0
    ensures p % SIZEOF_DOUBLE == 0
  {
    QuotientUnique(p, SIZEOF_DOUBLE, 2 * (p / MIN_ALIGNED_SIZE), 0);
  }

  /** What malloc returns is aligned for a double. */
  method PlainBlock(h: Allocator, pid: nat, alignment: Size, size: Size) returns (r: nat)
    requires h.Valid()
    modifies h.subheaps
    ensures size >= WORD / 2 ==> r == NULL && h.subheaps[..] == old(h.subheaps[..])
    ensures size < WORD / 2 ==> r == old(h.subheaps[Slot(pid)]) && h.subheaps[..] == Bumped(old(h.subheaps[..]), pid, size)
    ensures size < WORD / 2 && old(h.subheaps[Slot(pid)]) % MIN_ALIGNED_SIZE == 0 ==> r % SIZEOF_DOUBLE == 0
    ensures NoWrap(old(h.subheaps[Slot(pid)]), size, alignment) ==>
              Inside(r, size, old(h.subheaps[Slot(pid)]), h.subheaps[..][Slot(pid)])
  {
    FirstBlock(h.subheaps[..], pid, size);
    r := CustomMalloc(h, pid, size);
    if r % MIN_ALIGNED_SIZE == 0 {
      DoubleAligned(r);
    }
  }

  /** CUSTOM_MEMALIGN. The shortcut compares `ptr & (alignment - 1)` with `ptr`, so it is taken for
      blocks that lie below the alignment, not for aligned ones: except for the alignment of a
      double, which is left to malloc, a result is aligned exactly when the first block does not lie
      below the alignment. When malloc refuses the larger size the result is null, and the block of the
      first attempt stays allocated. */
  method CustomMemalign(h: Allocator, pid: nat, alignment: Size, size: Size) returns (r: nat)
    requires h.Valid()
    modifies h.subheaps
    ensures !PowerOfTwo(alignment) || size >= WORD / 2 ==> r == NULL && h.subheaps[..] == old(h.subheaps[..])
    // one block, of the requested size
    ensures PowerOfTwo(alignment) && size < WORD / 2 && (alignment == SIZEOF_DOUBLE || old(h.subheaps[Slot(pid)]) < alignment) ==>
              r == old(h.subheaps[Slot(pid)]) && h.subheaps[..] == Bumped(old(h.subheaps[..]), pid, size)
    // two blocks, and the result in the second
    ensures PowerOfTwo(alignment) && TwoBlocks(old(h.subheaps[Slot(pid)]), size, alignment) && Widened(size, alignment) < WORD / 2 ==>
              var first := Bumped(old(h.subheaps[..]), pid, size);
              r == AlignUp(first[Slot(pid)], alignment) && h.subheaps[..] == Bumped(first, pid, Widened(size, alignment))
    ensures PowerOfTwo(alignment) && TwoBlocks(old(h.subheaps[Slot(pid)]), size, alignment) && Widened(size, alignment) >= WORD / 2 ==>
              r == NULL && h.subheaps[..] == Bumped(old(h.subheaps[..]), pid, size)
    // what that means
    ensures PowerOfTwo(alignment) && alignment != SIZEOF_DOUBLE && size < WORD / 2 ==>
              (r % alignment == 0 <==> !(0 < old(h.subheaps[Slot(pid)]) < alignment))
    ensures alignment == SIZEOF_DOUBLE && size < WORD / 2 && old(h.subheaps[Slot(pid)]) % MIN_ALIGNED_SIZE == 0 ==>
              r % SIZEOF_DOUBLE == 0
    ensures PowerOfTwo(alignment) && NoWrap(old(h.subheaps[Slot(pid)]), size, alignment) ==>
              Inside(r, size, old(h.subheaps[Slot(pid)]), h.subheaps[..][Slot(pid)])
              && (old(h.subheaps[Slot(pid)]) != NULL ==> r != NULL)
  {
    TestIsExact(alignment);
    if !IsPowerOfTwo(alignment) {
      return NULL;
    }
    if alignment == SIZEOF_DOUBLE {
      r := PlainBlock(h, pid, alignment, size);
    } else {
      r := ShortcutOrBlock(h, pid, alignment, size);
    }
  }
}
