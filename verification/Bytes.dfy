/** The arithmetic of the 8-bit counters of src/queue.c, which wrap. */
module Bytes {

  /** The byte that holds the unbounded counter n. */
  function Byte(n: int): bv8 { (n % 256) as bv8 }

  /** Increment and decrement, with wrap-around. */
  function Next(b: bv8): bv8 { b + 1 }

  function Prev(b: bv8): bv8 { b - 1 }

  function Val(b: bv8): (n: nat) { b as nat }

  /** `b & (size - 1)`: the slot of a counter. */
  function Slot(b: bv8): (i: nat)
    ensures i < 128
  {
    LowBits(b);
    Val(b & 127)
  }

  lemma SmallByte(r: nat)
    requires r < 256
    ensures Val(r as bv8) == r
  {
  }

  lemma ByteOf(n: int)
    ensures Val(Byte(n)) == n % 256
  {
    hide Val;
    SmallByte(n % 256);
  }

  lemma Injective(b: bv8, t: bv8)
    requires Val(b) == Val(t)
    ensures b == t
  {
  }

  lemma AddOne(b: bv8)
    ensures Val(Next(b)) == (Val(b) + 1) % 256
  {
  }

  lemma TakeOne(b: bv8)
    ensures Val(Prev(b)) == (Val(b) - 1) % 256
  {
  }

  lemma AddHalf(b: bv8)
    ensures Val(b + 128) == (Val(b) + 128) % 256
  {
  }

  lemma Increment(n: int)
    ensures Next(Byte(n)) == Byte(n + 1)
  {
    hide Byte, Val, Next, Prev;
    ByteOf(n);
    AddOne(Byte(n));
    ByteOf(n + 1);
    Injective(Next(Byte(n)), Byte(n + 1));
  }

  lemma Decrement(n: int)
    ensures Prev(Byte(n)) == Byte(n - 1)
  {
    hide Byte, Val, Next, Prev;
    ByteOf(n);
    TakeOne(Byte(n));
    ByteOf(n - 1);
    Injective(Prev(Byte(n)), Byte(n - 1));
  }

  lemma Half(n: int)
    ensures Byte(n) + 128 == Byte(n + 128)
  {
    hide Byte, Val, Next, Prev;
    ByteOf(n);
    AddHalf(Byte(n));
    ByteOf(n + 128);
    Injective(Byte(n) + 128, Byte(n + 128));
  }

  lemma SameByte(m: int, n: int)
    ensures Byte(m) == Byte(n) <==> (m - n) % 256 == 0
  {
    hide Byte, Val, Next, Prev;
    ByteOf(m);
    ByteOf(n);
    if Val(Byte(m)) == Val(Byte(n)) { Injective(Byte(m), Byte(n)); }
  }

  lemma LowBits(b: bv8)
    ensures Val(b & 127) < 128 && (Val(b & 127) == Val(b) || Val(b & 127) == Val(b) - 128)
  {
    assert b & 127 == b || b & 127 == b - 128;
  }

  lemma SlotOf(n: int)
    ensures Slot(Byte(n)) == n % 128
  {
    hide Byte, Val, Next, Prev;
    ByteOf(n);
    LowBits(Byte(n));
  }

  lemma XorIsHalf(b: bv8, t: bv8)
    ensures b ^ t == 128 <==> b == t + 128
  {
  }

  /** The full test, `(b ^ t) == size`. */
  lemma Opposite(m: int, n: int)
    ensures Byte(m) ^ Byte(n) == 128 <==> (m - n) % 256 == 128
  {
    hide Byte, Val, Next, Prev;
    XorIsHalf(Byte(m), Byte(n));
    Half(n);
    SameByte(m, n + 128);
  }
}
