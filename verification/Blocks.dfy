/** Blocks as an abstraction of byte ranges (src/deps.c), and the bump allocation of
    whole blocks that it relies on (src/balloc.c). */
module Blocks {
  import opened Trie

  /** A byte range inside the grid. */
  predicate InGrid(addr: nat, size: nat, grid: nat) {
    size > 0 && grid <= addr && addr + size <= grid + GRID && grid + GRID <= WORDS
  }

  /** meta_index_start and meta_index_end of an argument. */
  function StartIndex(addr: nat, grid: nat): nat { GetIndex(addr, grid) }

  function EndIndex(addr: nat, size: nat, grid: nat): nat
    requires addr + size > 0
  {
    GetIndex(addr + size - 1, grid)
  }

  /** Do the index ranges of two arguments meet? */
  predicate Meet(a: nat, s: nat, b: nat, t: nat, grid: nat)
    requires a + s > 0 && b + t > 0
  {
    StartIndex(a, grid) <= EndIndex(b, t, grid) && StartIndex(b, grid) <= EndIndex(a, s, grid)
  }

  lemma Monotone(x: nat, y: nat)
    requires x <= y
    ensures x / BLOCK <= y / BLOCK
  {
  }

  /** Overlapping arguments are seen by the analysis. */
  lemma OverlapMeets(a: nat, s: nat, b: nat, t: nat, grid: nat)
    requires InGrid(a, s, grid) && InGrid(b, t, grid) && a < b + t && b < a + s
    ensures Meet(a, s, b, t, grid)
  {
    IndexInGrid(a, grid);
    IndexInGrid(b, grid);
    IndexInGrid(a + s - 1, grid);
    IndexInGrid(b + t - 1, grid);
    Monotone(a - grid, b + t - 1 - grid);
    Monotone(b - grid, a + s - 1 - grid);
  }

  /** Exactly what it sees: arguments that have bytes in a common block. */
  lemma MeetIsExact(a: nat, s: nat, b: nat, t: nat, grid: nat)
    requires InGrid(a, s, grid) && InGrid(b, t, grid)
    ensures Meet(a, s, b, t, grid) <==>
      exists x: nat, y: nat :: a <= x < a + s && b <= y < b + t && GetIndex(x, grid) == GetIndex(y, grid)
  {
    IndexInGrid(a, grid);
    IndexInGrid(b, grid);
    IndexInGrid(a + s - 1, grid);
    IndexInGrid(b + t - 1, grid);
    if x: nat, y: nat :| a <= x < a + s && b <= y < b + t && GetIndex(x, grid) == GetIndex(y, grid) {
      IndexInGrid(x, grid);
      IndexInGrid(y, grid);
      Monotone(a - grid, x - grid);
      Monotone(x - grid, a + s - 1 - grid);
      Monotone(b - grid, y - grid);
      Monotone(y - grid, b + t - 1 - grid);
    }
    if Meet(a, s, b, t, grid) {
      // the later of the two first blocks holds a byte of both
      if a <= b { CommonByte(a, s, b, grid); } else { CommonByte(b, t, a, grid); }
    }
  }

  /** If the range from a reaches the block of b >= a, it has a byte there. */
  lemma CommonByte(a: nat, s: nat, b: nat, grid: nat)
    requires InGrid(a, s, grid) && a <= b < grid + GRID && StartIndex(b, grid) <= EndIndex(a, s, grid)
    ensures exists x: nat :: a <= x < a + s && GetIndex(x, grid) == GetIndex(b, grid)
  {
    IndexInGrid(b, grid);
    IndexInGrid(a + s - 1, grid);
    if b < a + s {
      assert a <= b < a + s && GetIndex(b, grid) == GetIndex(b, grid);
    } else {
      Monotone(a + s - 1 - grid, b - grid);
      assert GetIndex(a + s - 1, grid) == GetIndex(b, grid);
    }
  }

  // ---- balloc ---------------------------------------------------------------

  /** The whole blocks that a request takes; a multiple of the block size takes one more. */
  function Segment(size: nat): nat { size + BLOCK - size % BLOCK }

  lemma SegmentBlocks(size: nat)
    ensures Segment(size) % BLOCK == 0 && Segment(size) > size
  {
  }

  /** Where the k-th segment starts, from the start of the grid. */
  function Offset(sizes: seq<nat>, k: nat): (o: nat)
    requires k <= |sizes|
  {
    if k == 0 then 0 else Offset(sizes, k - 1) + Segment(sizes[k - 1])
  }

  lemma {:induction false} OffsetBlocks(sizes: seq<nat>, k: nat)
    requires k <= |sizes|
    ensures Offset(sizes, k) % BLOCK == 0
  {
    if k > 0 {
      OffsetBlocks(sizes, k - 1);
      SegmentBlocks(sizes[k - 1]);
    }
  }

  lemma {:induction false} OffsetsGrow(sizes: seq<nat>, i: nat, j: nat)
    requires i < j <= |sizes|
    ensures Offset(sizes, i) + Segment(sizes[i]) <= Offset(sizes, j)
  {
    if i < j - 1 {
      OffsetsGrow(sizes, i, j - 1);
      SegmentBlocks(sizes[j - 1]);
    }
  }

  lemma {:induction false} OffsetPrefix(sizes: seq<nat>, more: seq<nat>, k: nat)
    requires k <= |sizes|
    ensures Offset(sizes + more, k) == Offset(sizes, k)
  {
    if k > 0 {
      OffsetPrefix(sizes, more, k - 1);
      assert (sizes + more)[k - 1] == sizes[k - 1];
    }
  }

  /** Two allocations of a run that fits the grid have no block in common. */
  lemma {:induction false} SegmentsApart(sizes: seq<nat>, i: nat, j: nat, grid: nat)
    requires i < j < |sizes| && Offset(sizes, |sizes|) <= GRID && grid + GRID <= WORDS
    requires sizes[i] > 0 && sizes[j] > 0
    ensures InGrid(grid + Offset(sizes, i), sizes[i], grid) && InGrid(grid + Offset(sizes, j), sizes[j], grid)
    ensures EndIndex(grid + Offset(sizes, i), sizes[i], grid) < StartIndex(grid + Offset(sizes, j), grid)
  {
    var x, y := Offset(sizes, i), Offset(sizes, j);
    SegmentBlocks(sizes[i]);
    SegmentBlocks(sizes[j]);
    OffsetsGrow(sizes, i, j);
    OffsetsGrow(sizes, j, |sizes|);
    OffsetBlocks(sizes, i);
    OffsetBlocks(sizes, j);
    IndexInGrid(grid + x + sizes[i] - 1, grid);
    IndexInGrid(grid + y, grid);
    assert x + sizes[i] - 1 < y && y % BLOCK == 0;
  }

  /** Past the end of the grid the index comes round. */
  lemma IndexComesRound(d: nat, grid: nat)
    ensures GetIndex(grid + d, grid) == (d / BLOCK) % (GRID / BLOCK)
  {
    var q, r := d / WORDS, d % WORDS;
    assert d == q * WORDS + r;
    assert d / BLOCK == q * 17179869184 * (GRID / BLOCK) + r / BLOCK;
    MoreRounds(q * 17179869184, r / BLOCK);
  }

  lemma MoreRounds(q: nat, r: nat)
    ensures (q * (GRID / BLOCK) + r) % (GRID / BLOCK) == r % (GRID / BLOCK)
  {
  }

  /** Address x lies in the k-th segment. */
  predicate InSegment(sizes: seq<nat>, k: nat, grid: nat, x: nat)
    requires k < |sizes|
  {
    grid + Offset(sizes, k) <= x < grid + Offset(sizes, k + 1)
  }

  /** No two segments have a block in common. */
  ghost predicate AllApart(sizes: seq<nat>, grid: nat) {
    forall i, j, x: nat, y: nat :: 0 <= i < j < |sizes| && InSegment(sizes, i, grid, x) && InSegment(sizes, j, grid, y) ==>
      GetIndex(x, grid) != GetIndex(y, grid)
  }

  /** The segment that holds the byte at offset d. */
  lemma {:induction false} SegmentAt(sizes: seq<nat>, d: nat, n: nat) returns (k: nat)
    requires n <= |sizes| && d < Offset(sizes, n)
    ensures k < n && Offset(sizes, k) <= d < Offset(sizes, k + 1)
  {
    if Offset(sizes, n - 1) <= d { k := n - 1; } else { k := SegmentAt(sizes, d, n - 1); }
  }

  lemma {:induction false} FitsApart(sizes: seq<nat>, grid: nat, i: nat, j: nat, x: nat, y: nat)
    requires Offset(sizes, |sizes|) <= GRID && i < j < |sizes| && InSegment(sizes, i, grid, x) && InSegment(sizes, j, grid, y)
    ensures GetIndex(x, grid) != GetIndex(y, grid)
  {
    OffsetsGrow(sizes, i, j);
    OffsetsGrow(sizes, j, |sizes|);
    OffsetBlocks(sizes, j);
    hide GetIndex;
    IndexInGrid(x, grid);
    IndexInGrid(y, grid);
    BlocksApart(x - grid, Offset(sizes, j), y - grid);
  }

  lemma BlocksApart(dx: nat, o: nat, dy: nat)
    requires dx < o <= dy < GRID && o % BLOCK == 0
    ensures dx / BLOCK < dy / BLOCK
  {
  }

  /** When the segments do not fit, one of them has a block of the first. */
  lemma Collision(sizes: seq<nat>, grid: nat) returns (j: nat, x: nat, y: nat)
    requires |sizes| >= 2 && Offset(sizes, |sizes|) > GRID
    ensures 0 < j < |sizes| && InSegment(sizes, 0, grid, x) && InSegment(sizes, j, grid, y)
    ensures GetIndex(x, grid) == GetIndex(y, grid)
  {
    j := SegmentAt(sizes, GRID, |sizes|);
    var d := GRID;
    if j == 0 {
      j, d := 1, Offset(sizes, 1);
      SegmentBlocks(sizes[1]);
    } else {
      OffsetsGrow(sizes, 0, j);
    }
    SegmentBlocks(sizes[0]);
    var e := (d / BLOCK) % (GRID / BLOCK) * BLOCK;
    x, y := grid + e, grid + d;
    IndexComesRound(d, grid);
    IndexComesRound(e, grid);
    assert d == GRID ==> e == 0;
    assert Offset(sizes, 0) == 0 && Offset(sizes, 1) == Segment(sizes[0]);
  }

  /** Exactly when the blocks of a run of allocations stay apart: when the run fits the
      grid, or has not got beyond one allocation. */
  lemma {:induction false} ApartIsExact(sizes: seq<nat>, grid: nat)
    ensures AllApart(sizes, grid) <==> |sizes| < 2 || Offset(sizes, |sizes|) <= GRID
  {
    if Offset(sizes, |sizes|) <= GRID {
      forall i, j, x: nat, y: nat | 0 <= i < j < |sizes| && InSegment(sizes, i, grid, x) && InSegment(sizes, j, grid, y)
        ensures GetIndex(x, grid) != GetIndex(y, grid)
      {
        FitsApart(sizes, grid, i, j, x, y);
      }
    } else if |sizes| >= 2 {
      var j, x, y := Collision(sizes, grid);
    }
  }

  class Balloc {
    const grid: nat        // grid_t
    var top: nat           // Top
    ghost var sizes: seq<nat>

    ghost predicate Valid()
      reads this
    {
      top == grid + Offset(sizes, |sizes|)
    }

    constructor (grid: nat)
      ensures Valid() && this.grid == grid && sizes == []
    {
      this.grid := grid;
      top, sizes := grid, [];
    }

    /** In every state: the blocks handed out are apart if and only if Top has not passed
        the end of the grid, or there was one call at most. */
    lemma GridIsExact()
      requires Valid()
      ensures AllApart(sizes, grid) <==> |sizes| < 2 || top <= grid + GRID
    {
      ApartIsExact(sizes, grid);
    }

    /** balloc_alloc: the k-th call returns the start of the k-th segment. */
    method Alloc(size: nat) returns (mem: nat)
      requires Valid()
      modifies this
      ensures Valid() && sizes == old(sizes) + [size]
      ensures mem == grid + Offset(sizes, |sizes| - 1)
      ensures forall k :: 0 <= k <= |old(sizes)| ==> Offset(sizes, k) == Offset(old(sizes), k)
    {
      var segment := size + BLOCK - size % BLOCK;
      mem := top;
      top := top + segment;
      forall k | 0 <= k <= |sizes| ensures Offset(sizes + [size], k) == Offset(sizes, k) {
        OffsetPrefix(sizes, [size], k);
      }
      sizes := sizes + [size];
    }
  }
}
