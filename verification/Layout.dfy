/** The arithmetic of the bump allocator (src/alloc.c, src/regions.c), for the 64-bit
    build: a page header of 32 bytes in front of `previous`, a region record of 96. */
module Layout {

  const PAGE := 16384   // RPAGESIZE
  const HEADER := 32    // offsetof(struct page, previous)
  const RECORD := 96    // sizeof(struct region_)
  const K := 4
  const WORD := 8       // RALIGNMENT

  /** ALIGN and PALIGN: x rounded up to a multiple of n. */
  function Align(x: nat, n: nat): (r: nat)
    requires n > 0
  {
    (x + (n - 1)) / n * n
  }

  /** The powers of two up to the page size. */
  predicate IsAlignment(a: nat) { a > 0 && PAGE % a == 0 }

  lemma AtLeast(k: nat, n: nat)
    ensures k > 0 ==> k * n >= n
  {
  }

  /** Quotient and remainder are unique. */
  lemma Divided(x: nat, n: nat, q: nat, r: nat)
    requires n > 0 && r < n && x == q * n + r
    ensures x / n == q && x % n == r
  {
    var q', r' := x / n, x % n;
    assert x == q' * n + r';
    assert (q - q') * n == r' - r;
    if q > q' { AtLeast(q - q', n); }
    if q < q' { AtLeast(q' - q, n); }
  }

  lemma MulMod(k: nat, n: nat)
    requires n > 0
    ensures (k * n) % n == 0
  {
    Divided(k * n, n, k, 0);
  }

  lemma AlignUp(x: nat, n: nat)
    requires n > 0
    ensures x <= Align(x, n) < x + n && Align(x, n) % n == 0
  {
    var y := x + (n - 1);
    assert y == y / n * n + y % n;
    MulMod(y / n, n);
  }

  /** The multiple of n in x..x+n-1 is unique. */
  lemma AlignIs(x: nat, n: nat, y: nat)
    requires n > 0 && x <= y < x + n && y % n == 0
    ensures Align(x, n) == y
  {
    AlignUp(x, n);
    var z := Align(x, n);
    var d := if y >= z then y - z else z - y;
    ModDiff(y, z, n);
    Divided(d, n, 0, d);
  }

  lemma ModDiff(y: nat, z: nat, n: nat)
    requires n > 0 && y % n == 0 && z % n == 0
    ensures (if y >= z then y - z else z - y) % n == 0
  {
    var q, r := y / n, z / n;
    assert y == q * n && z == r * n;
    if y >= z {
      assert y - z == (q - r) * n;
      AtLeast(if r > q then r - q else 0, n);
      MulMod(q - r, n);
    } else {
      assert z - y == (r - q) * n;
      AtLeast(if q > r then q - r else 0, n);
      MulMod(r - q, n);
    }
  }

  lemma SumMod(y: nat, z: nat, n: nat)
    requires n > 0 && y % n == 0 && z % n == 0
    ensures (y + z) % n == 0
  {
    var q, r := y / n, z / n;
    assert y == q * n && z == r * n;
    assert y + z == (q + r) * n;
    MulMod(q + r, n);
  }

  /** Rounding up commutes with adding a multiple. */
  lemma AlignAdd(x: nat, s: nat, n: nat)
    requires n > 0 && x % n == 0
    ensures Align(x + s, n) == x + Align(s, n)
  {
    AlignUp(s, n);
    SumMod(x, Align(s, n), n);
    AlignIs(x + s, n, x + Align(s, n));
  }

  /** A page starts at a multiple of every alignment. */
  lemma PageAligned(base: nat, a: nat)
    requires base % PAGE == 0 && IsAlignment(a)
    ensures base % a == 0
  {
    var q, m := base / PAGE, PAGE / a;
    assert base == q * PAGE && PAGE == m * a;
    assert base == (q * m) * a by { assert q * (m * a) == (q * m) * a; }
    MulMod(q * m, a);
  }

  // ---- qalloc ---------------------------------------------------------------

  /** The two addresses that qalloc and alloc_block compute from `from`. */
  function First(from: nat, a1: nat): nat
    requires a1 > 0
  {
    Align(from, a1)
  }

  function Second(from: nat, s1: nat, a1: nat, a2: nat): nat
    requires a1 > 0 && a2 > 0
  {
    Align(Align(from, a1) + s1, a2)
  }

  /** The size that decides between the paths, and the pages of the big one. */
  function Needed(s1: nat, s2: nat, a2: nat): nat
    requires a2 > 0
  {
    Align(s1, a2) + s2
  }

  function BigPages(s1: nat, a1: nat, s2: nat, a2: nat): nat
    requires a1 > 0 && a2 > 0
  {
    (Needed(s1, s2, a2) + Align(HEADER, a1) + PAGE) / PAGE
  }

  /** Both results are aligned, in this order, and do not overlap. */
  lemma QallocAligned(from: nat, s1: nat, a1: nat, a2: nat)
    requires a1 > 0 && a2 > 0
    ensures from <= First(from, a1) && First(from, a1) + s1 <= Second(from, s1, a1, a2)
    ensures First(from, a1) % a1 == 0 && Second(from, s1, a1, a2) % a2 == 0
  {
    AlignUp(from, a1);
    AlignUp(First(from, a1) + s1, a2);
  }

  /** On a new page alloc_block does not look again; it need not: what goes to a page
      is small enough, and the byte past the object is still on the page. */
  lemma NewPageFits(base: nat, s1: nat, a1: nat, s2: nat, a2: nat)
    requires base % PAGE == 0 && 0 < a1 <= PAGE / K && 0 < a2 <= PAGE / K && Needed(s1, s2, a2) <= PAGE / K
    ensures base + HEADER <= First(base + HEADER, a1)
    ensures Second(base + HEADER, s1, a1, a2) + s2 < base + PAGE
  {
    AlignUp(base + HEADER, a1);
    AlignUp(First(base + HEADER, a1) + s1, a2);
    AlignUp(s1, a2);
  }

  /** The big path, for one request: the byte past the object is inside the pages. */
  lemma BigPathFits(base: nat, s1: nat, a1: nat, s2: nat, a2: nat)
    requires base % PAGE == 0 && IsAlignment(a1) && IsAlignment(a2) && Align(HEADER, a1) % a2 == 0
    ensures base + HEADER <= First(base + HEADER, a1)
    ensures Second(base + HEADER, s1, a1, a2) + s2 < base + BigPages(s1, a1, s2, a2) * PAGE
  {
    PageAligned(base, a1);
    PageAligned(base, a2);
    AlignUp(HEADER, a1);
    AlignAdd(base, HEADER, a1);
    var off := Align(HEADER, a1);
    SumMod(base, off, a2);
    AlignAdd(base + off, s1, a2);
    var x := Needed(s1, s2, a2) + off;
    assert (x + PAGE) / PAGE * PAGE > x;
  }

  /** Exactly which alignments the computed number of pages is good for: all the
      requests fit if and only if a2 divides the offset of the first part. */
  lemma BigPathIsExact(base: nat, a1: nat, a2: nat)
    requires base % PAGE == 0 && IsAlignment(a1) && IsAlignment(a2)
    ensures (forall s1: nat, s2: nat :: Second(base + HEADER, s1, a1, a2) + s2 < base + BigPages(s1, a1, s2, a2) * PAGE)
            <==> Align(HEADER, a1) % a2 == 0
  {
    if Align(HEADER, a1) % a2 == 0 {
      forall s1: nat, s2: nat ensures Second(base + HEADER, s1, a1, a2) + s2 < base + BigPages(s1, a1, s2, a2) * PAGE {
        BigPathFits(base, s1, a1, s2, a2);
      }
    } else {
      BigPathOverruns(base, a1, a2);
    }
  }

  /** Otherwise a request of two pages less the first offset, less one, sticks out. */
  lemma BigPathOverruns(base: nat, a1: nat, a2: nat)
    requires base % PAGE == 0 && IsAlignment(a1) && IsAlignment(a2) && Align(HEADER, a1) % a2 != 0
    ensures Align(HEADER, a1) < 2 * PAGE
    ensures var s2 := 2 * PAGE - 1 - Align(HEADER, a1);
      !(Second(base + HEADER, 0, a1, a2) + s2 < base + BigPages(0, a1, s2, a2) * PAGE)
  {
    PageAligned(base, a1);
    PageAligned(base, a2);
    AlignmentBound(a1);
    AlignUp(HEADER, a1);
    AlignAdd(base, HEADER, a1);
    var off := Align(HEADER, a1);
    var s2 := 2 * PAGE - 1 - off;
    AlignUp(off, a2);
    AlignAdd(base, off, a2);
    AlignUp(0, a2);
    AlignIs(0, a2, 0);
    assert Align(off, a2) != off;
    assert (s2 + off + PAGE) / PAGE == 2;
  }

  lemma AlignmentBound(a: nat)
    requires IsAlignment(a)
    ensures a <= PAGE
  {
  }

  // ---- clear ----------------------------------------------------------------

  /** The bytes that clear() writes: whole words, and at least one. */
  function Cleared(size: nat): nat { if size == 0 then WORD else Align(size, WORD) }

  lemma WordsToEnd(base: nat, mem: nat)
    requires base % PAGE == 0 && mem % WORD == 0 && mem < base + PAGE
    ensures (base + PAGE - mem) % WORD == 0
  {
    var q, r := base / PAGE, mem / WORD;
    assert base == q * PAGE && mem == r * WORD;
    var k: nat := 2048 * (q + 1) - r;
    assert base + PAGE - mem == k * WORD;
    MulMod(k, WORD);
  }

  /** Between a size and the next whole word there is no other whole word. */
  lemma WholeWords(room: nat, size: nat, c: nat)
    requires room % WORD == 0 && c % WORD == 0 && size < room && size <= c < size + WORD
    ensures c <= room
  {
  }

  /** An object that ends strictly inside its page is cleared inside the page. */
  lemma ClearStaysInPage(base: nat, mem: nat, size: nat)
    requires base % PAGE == 0 && mem % WORD == 0 && mem + size < base + PAGE
    ensures size <= Cleared(size) && mem + Cleared(size) <= base + PAGE
  {
    if size > 0 {
      AlignUp(size, WORD);
      hide Align;
      WholeWords(base + PAGE - mem, size, Align(size, WORD)) by { WordsToEnd(base, mem); }
    }
  }
}
