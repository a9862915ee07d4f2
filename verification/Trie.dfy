/** The two-level look-up table of src/trie.c, which stands for a flat table of 2^19
    cells, and the block index that src/deps.c looks up in it. */
module Trie {

  datatype Option<+T> = None | Some(value: T)

  const ROWS := 1024        // 1 << UP_BITS
  const CELLS := 512        // 1 << DOWN_BITS
  const DOMAIN := 524288

  /** FIRST_LEVEL and SECOND_LEVEL. */
  function FirstLevel(x: nat): nat { x / CELLS }

  function SecondLevel(x: nat): int { x - FirstLevel(x) * CELLS }

  /** Inside the domain both indices are in bounds, and together they are the index. */
  lemma Levels(x: nat)
    requires x < DOMAIN
    ensures FirstLevel(x) < ROWS && 0 <= SecondLevel(x) < CELLS && FirstLevel(x) * CELLS + SecondLevel(x) == x
  {
  }

  /** Different indices meet different cells. */
  lemma CellsDiffer(x: nat, y: nat)
    requires x < DOMAIN && y < DOMAIN && x != y
    ensures FirstLevel(x) != FirstLevel(y) || SecondLevel(x) != SecondLevel(y)
  {
    Levels(x);
    Levels(y);
  }

  // ---- GET_INDEX ------------------------------------------------------------

  const WORDS := 0x1_0000_0000_0000_0000 // 64-bit addresses
  const BLOCK := 2048                    // BLOCK_SZ
  const GRID := 1073741824               // GRID_SZ

  /** GET_INDEX on 64-bit addresses: the subtraction wraps. */
  function GetIndex(addr: nat, grid: nat): (i: nat)
    ensures i < DOMAIN
  {
    ((addr - grid) % WORDS / BLOCK) % (GRID / BLOCK)
  }

  /** For every address whatever, the index stays inside both levels of the table. */
  lemma IndexInBounds(addr: nat, grid: nat)
    ensures FirstLevel(GetIndex(addr, grid)) < ROWS && 0 <= SecondLevel(GetIndex(addr, grid)) < CELLS
  {
    Levels(GetIndex(addr, grid));
  }

  /** Inside the grid the index is the number of the block. */
  lemma IndexInGrid(addr: nat, grid: nat)
    requires grid <= addr < grid + GRID
    ensures GetIndex(addr, grid) == (addr - grid) / BLOCK
  {
  }

  // ---- the table ------------------------------------------------------------

  type Cell = Option<nat>

  class Table {
    const rows: array<array?<Cell>>
    ghost var Repr: set<object>

    ghost predicate Valid()
      reads this, Repr
    {
      && rows in Repr && rows.Length == ROWS
      && (forall k :: 0 <= k < ROWS && rows[k] != null ==> rows[k] in Repr && rows[k].Length == CELLS)
      && (forall k, l :: 0 <= k < l < ROWS && rows[k] != null ==> rows[k] != rows[l])
    }

    /** What the table says about index x. */
    ghost function At(x: nat): Cell
      requires Valid() && x < DOMAIN
      reads this, Repr
    {
      Levels(x);
      if rows[FirstLevel(x)] == null then None else rows[FirstLevel(x)][SecondLevel(x)]
    }

    /** The flat table. */
    ghost function Flat(): (f: seq<Cell>)
      requires Valid()
      reads this, Repr
      ensures |f| == DOMAIN
    {
      seq(DOMAIN, x requires 0 <= x < DOMAIN && Valid() reads this, Repr => At(x))
    }

    /** Has get_or_create_node been called for this index or a neighbour? */
    ghost predicate Created(x: nat)
      requires Valid() && x < DOMAIN
      reads this, Repr
    {
      Levels(x);
      rows[FirstLevel(x)] != null
    }

    constructor ()
      ensures Valid() && fresh(Repr) && Flat() == seq(DOMAIN, _ => None)
      ensures forall x :: 0 <= x < DOMAIN ==> !Created(x)
    {
      rows := new array?<Cell>[ROWS](_ => null);
      new;
      Repr := {rows};
    }

    method GetOrCreateNode(x: nat) returns (r: Cell)
      requires Valid() && x < DOMAIN
      modifies Repr, this`Repr
      ensures Valid() && fresh(Repr - old(Repr))
      ensures r == old(Flat())[x] && Flat() == old(Flat())
      ensures forall y :: 0 <= y < DOMAIN ==> (Created(y) <==> old(Created(y)) || FirstLevel(y) == FirstLevel(x))
    {
      Levels(x);
      if rows[FirstLevel(x)] == null {
        var row := new Cell[CELLS](_ => None);
        rows[FirstLevel(x)] := row;
        Repr := Repr + {row};
        forall y | 0 <= y < DOMAIN ensures At(y) == old(At(y)) { Levels(y); }
      }
      r := rows[FirstLevel(x)][SecondLevel(x)];
    }

    /** set_node, on an index whose row exists. */
    method SetNode(x: nat, e: Cell)
      requires Valid() && x < DOMAIN && Created(x)
      modifies Repr
      ensures Valid() && Repr == old(Repr) && Flat() == old(Flat())[x := e]
      ensures forall y :: 0 <= y < DOMAIN ==> (Created(y) <==> old(Created(y)))
    {
      Levels(x);
      rows[FirstLevel(x)][SecondLevel(x)] := e;
      forall y | 0 <= y < DOMAIN ensures At(y) == if y == x then e else old(At(y)) {
        Levels(y);
        if y != x { CellsDiffer(x, y); }
      }
    }

    method GetNode(x: nat) returns (r: Cell)
      requires Valid() && x < DOMAIN
      ensures r == Flat()[x]
    {
      Levels(x);
      r := if rows[FirstLevel(x)] != null then rows[FirstLevel(x)][SecondLevel(x)] else None;
    }
  }

  // ---- any sequence of operations -------------------------------------------

  datatype Op = GetOrCreate(x: nat) | Set(x: nat, e: Cell) | Get(x: nat)

  predicate InDomain(ops: seq<Op>) {
    forall k :: 0 <= k < |ops| ==> ops[k].x < DOMAIN
  }

  /** The flat table after the first n operations. */
  function After(ops: seq<Op>, n: nat): (f: seq<Cell>)
    requires n <= |ops| && InDomain(ops)
    ensures |f| == DOMAIN
  {
    if n == 0 then seq(DOMAIN, _ => None)
    else if ops[n - 1].Set? then After(ops, n - 1)[ops[n - 1].x := ops[n - 1].e]
    else After(ops, n - 1)
  }

  /** set_node comes after get_or_create_node on the same row. */
  ghost predicate SetsCreated(ops: seq<Op>) {
    forall k :: 0 <= k < |ops| && ops[k].Set? ==> CreatedBefore(ops, k, ops[k].x)
  }

  ghost predicate CreatedBefore(ops: seq<Op>, k: nat, x: nat)
    requires k <= |ops|
  {
    exists j :: 0 <= j < k && ops[j].GetOrCreate? && FirstLevel(ops[j].x) == FirstLevel(x)
  }

  /** The first n operations have been answered as the flat table answers them. */
  ghost predicate Answered(ops: seq<Op>, answers: seq<Cell>, n: nat)
    requires n <= |ops| && InDomain(ops)
  {
    |answers| == n && forall k :: 0 <= k < n && !ops[k].Set? ==> answers[k] == After(ops, k)[ops[k].x]
  }

  /** Any such sequence is answered as by the flat table. */
  method Replay(ops: seq<Op>) returns (answers: seq<Cell>)
    requires SetsCreated(ops) && InDomain(ops)
    ensures Answered(ops, answers, |ops|)
  {
    hide After, FirstLevel, CreatedBefore, SetsCreated;
    answers := [];
    var table := new Table();
    AfterStep(ops, 0);
    assert forall x: nat :: !CreatedBefore(ops, 0, x) by { NoneBefore(ops); }
    for n := 0 to |ops|
      invariant table.Valid() && fresh(table) && fresh(table.Repr)
      invariant table.Flat() == After(ops, n) && Answered(ops, answers, n)
      invariant forall x: nat :: x < DOMAIN && CreatedBefore(ops, n, x) ==> table.Created(x)
    {
      AfterStep(ops, n);
      CreatedNext(ops, n);
      var r := Perform(table, ops[n]);
      answers := answers + [r];
    }
  }

  lemma NoneBefore(ops: seq<Op>)
    ensures forall x: nat :: !CreatedBefore(ops, 0, x)
  {
  }

  lemma CreatedNext(ops: seq<Op>, n: nat)
    requires SetsCreated(ops) && n < |ops|
    ensures ops[n].Set? ==> CreatedBefore(ops, n, ops[n].x)
    ensures forall x: nat :: CreatedBefore(ops, n + 1, x) <==>
      CreatedBefore(ops, n, x) || (ops[n].GetOrCreate? && FirstLevel(ops[n].x) == FirstLevel(x))
  {
    hide FirstLevel;
  }

  /** One operation on the table, and what it returns. */
  method Perform(table: Table, op: Op) returns (r: Cell)
    requires table.Valid() && op.x < DOMAIN && (op.Set? ==> table.Created(op.x))
    modifies table.Repr, table`Repr
    ensures table.Valid() && fresh(table.Repr - old(table.Repr))
    ensures table.Flat() == if op.Set? then old(table.Flat())[op.x := op.e] else old(table.Flat())
    ensures !op.Set? ==> r == old(table.Flat())[op.x]
    ensures forall y :: 0 <= y < DOMAIN ==>
      (table.Created(y) <==> old(table.Created(y)) || (op.GetOrCreate? && FirstLevel(y) == FirstLevel(op.x)))
  {
    if op.GetOrCreate? {
      r := table.GetOrCreateNode(op.x);
    } else if op.Set? {
      table.SetNode(op.x, op.e);
      r := None;
    } else {
      r := table.GetNode(op.x);
    }
  }

  lemma {:induction false} AfterStep(ops: seq<Op>, n: nat)
    requires n <= |ops| && InDomain(ops)
    ensures After(ops, 0) == seq(DOMAIN, _ => None)
    ensures n < |ops| ==>
              After(ops, n + 1) == if ops[n].Set? then After(ops, n)[ops[n].x := ops[n].e] else After(ops, n)
  {
  }
}
