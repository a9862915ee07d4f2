/** The bounded work-stealing deque of src/queue.c: one owner, any number of thieves,
    one step per shared access.  `low` and `high` are the unbounded counters whose
    residues are the bytes `top` and `bottom`. */
module Deque {
  import opened Bytes

  datatype Option<+T> = None | Some(value: T)

  const SIZE := 128

  /** Where the owner is: enqueue on the first line, dequeue_front on the second. */
  datatype Owner =
    | Resting | Adding(x: nat) | Writing(x: nat) | Storing(x: nat)
    | Reserved | Restoring(t: bv8) | Racing(v: nat, t: bv8) | Closing(r: Option<nat>, t: bv8) | Popped(r: Option<nat>)

  /** Where a thief is in dequeue_back; `at` is the counter behind the byte it read. */
  datatype Thief =
    | Away | SawTop(t: bv8, at: nat) | SawBoth(t: bv8, at: nat) | SawEntry(t: bv8, at: nat, v: nat) | Stolen(r: Option<nat>)

  datatype State = State(
    bottom: bv8, top: bv8, entries: seq<nat>, owner: Owner, thieves: seq<Thief>, low: nat, high: int)

  datatype Step =
    | Enqueue(x: nat) | Check | Write | Store
    | Dequeue | Look | Restore | Race | Close | Return
    | ReadTop(i: nat) | ReadBottom(i: nat) | ReadEntry(i: nat) | Swap(i: nat) | Leave(i: nat)

  // ---- the steps ------------------------------------------------------------

  predicate Enabled(s: State, a: Step) {
    match a
    case Enqueue(_) => s.owner == Resting
    case Check => s.owner.Adding?
    case Write => s.owner.Writing?
    case Store => s.owner.Storing?
    case Dequeue => s.owner == Resting
    case Look => s.owner == Reserved
    case Restore => s.owner.Restoring?
    case Race => s.owner.Racing?
    case Close => s.owner.Closing?
    case Return => s.owner.Popped?
    case ReadTop(i) => i < |s.thieves| && s.thieves[i] == Away
    case ReadBottom(i) => i < |s.thieves| && s.thieves[i].SawTop?
    case ReadEntry(i) => i < |s.thieves| && s.thieves[i].SawBoth?
    case Swap(i) => i < |s.thieves| && s.thieves[i].SawEntry?
    case Leave(i) => i < |s.thieves| && s.thieves[i].Stolen?
  }

  /** The test of isEmpty_Queue and dequeue_back. */
  predicate LooksEmpty(b: bv8, t: bv8) { b == t || Next(b) == t }

  /** The test of isFull_Queue and enqueue. */
  predicate LooksFull(b: bv8, t: bv8) { b ^ t == 128 }

  function OwnerLook(s: State): Owner
    requires |s.entries| == SIZE
  {
    if Next(s.bottom) == s.top then Restoring(s.top)
    else
      var v := s.entries[Slot(s.bottom)];
      if s.bottom != s.top then Popped(Some(v)) else Racing(v, s.top)
  }

  function OwnerDo(s: State, a: Step): (r: State)
    requires Enabled(s, a) && !ByThief(a) && |s.entries| == SIZE
    ensures |r.entries| == SIZE && r.thieves == s.thieves
  {
    match a
    case Enqueue(x) => s.(owner := Adding(x))
    case Check => s.(owner := if LooksFull(s.bottom, s.top) then Resting else Writing(s.owner.x))
    case Write => s.(entries := s.entries[Slot(s.bottom) := s.owner.x], owner := Storing(s.owner.x))
    case Store => s.(bottom := Next(s.bottom), high := s.high + 1, owner := Resting)
    case Dequeue => s.(bottom := Prev(s.bottom), high := s.high - 1, owner := Reserved)
    case Look => s.(owner := OwnerLook(s))
    case Restore => s.(bottom := s.owner.t, high := s.high + 1, owner := Popped(None))
    case Race =>
      if s.top == s.owner.t then s.(top := Next(s.top), low := s.low + 1, owner := Closing(Some(s.owner.v), s.owner.t))
      else s.(owner := Closing(None, s.owner.t))
    case Close => s.(bottom := Next(s.owner.t), high := s.high + 1, owner := Popped(s.owner.r))
    case Return => s.(owner := Resting)
  }

  predicate ByThief(a: Step) { a.ReadTop? || a.ReadBottom? || a.ReadEntry? || a.Swap? || a.Leave? }

  function ThiefDo(s: State, a: Step): (r: State)
    requires Enabled(s, a) && ByThief(a) && |s.entries| == SIZE
    ensures r.entries == s.entries && |r.thieves| == |s.thieves| && r.owner == s.owner
  {
    var h := s.thieves[a.i];
    match a
    case ReadTop(i) => s.(thieves := s.thieves[i := SawTop(s.top, s.low)])
    case ReadBottom(i) =>
      s.(thieves := s.thieves[i := if LooksEmpty(s.bottom, h.t) then Stolen(None) else SawBoth(h.t, h.at)])
    case ReadEntry(i) => s.(thieves := s.thieves[i := SawEntry(h.t, h.at, s.entries[Slot(h.t)])])
    case Swap(i) =>
      if s.top == h.t then s.(top := Next(s.top), low := s.low + 1, thieves := s.thieves[i := Stolen(Some(h.v))])
      else s.(thieves := s.thieves[i := Stolen(None)])
    case Leave(i) => s.(thieves := s.thieves[i := Away])
  }

  function Do(s: State, a: Step): (r: State)
    requires Enabled(s, a) && |s.entries| == SIZE
    ensures |r.entries| == SIZE && |r.thieves| == |s.thieves|
  {
    if ByThief(a) then ThiefDo(s, a) else OwnerDo(s, a)
  }

  // ---- what the deque holds -------------------------------------------------

  /** The n entries from counter `low` on. */
  function Span(entries: seq<nat>, low: nat, n: nat): (c: seq<nat>)
    requires |entries| == SIZE
    ensures |c| == n
  {
    seq(n, i requires 0 <= i < n => entries[(low + i) % SIZE])
  }

  /** While dequeue_front has reserved the last element, it still counts. */
  function Held(s: State): int {
    if s.owner.Reserved? || s.owner.Restoring? || s.owner.Racing? || s.owner.Closing? then s.high + 1 - s.low
    else s.high - s.low
  }

  function Content(s: State): seq<nat>
    requires |s.entries| == SIZE && Held(s) >= 0
  {
    Span(s.entries, s.low, Held(s))
  }

  // ---- the invariant --------------------------------------------------------

  ghost predicate CountersOk(s: State) {
    && |s.entries| == SIZE && s.top == Byte(s.low) && s.bottom == Byte(s.high)
    && 0 <= Held(s) <= SIZE
  }

  ghost predicate OwnerOk(s: State)
    requires |s.entries| == SIZE
  {
    && (s.owner.Writing? || s.owner.Storing? ==> Held(s) < SIZE)
    && (s.owner.Storing? ==> s.entries[s.high % SIZE] == s.owner.x)
    && (s.owner.Restoring? ==> Held(s) == 0 && s.owner.t == Byte(s.high + 1))
    && (s.owner.Racing? ==> Held(s) <= 1 && s.owner.t == Byte(s.high) && s.owner.v == s.entries[s.high % SIZE])
    && (s.owner.Closing? ==> Held(s) == 0 && s.owner.t == Byte(s.high))
    && (s.owner == Popped(None) ==> Held(s) == 0)
  }

  /** A thief whose counter is still the current one has seen an element there. */
  ghost predicate ThiefOk(s: State, h: Thief)
    requires |s.entries| == SIZE
  {
    && (h.SawTop? || h.SawBoth? || h.SawEntry? ==> h.at <= s.low && h.t == Byte(h.at))
    && (h.SawBoth? || h.SawEntry? ==> h.at == s.low ==> Held(s) > 0)
    && (h.SawEntry? ==> h.at == s.low ==> h.v == s.entries[s.low % SIZE])
  }

  ghost predicate Inv(s: State) {
    && CountersOk(s) && OwnerOk(s)
    && forall i :: 0 <= i < |s.thieves| ==> ThiefOk(s, s.thieves[i])
  }

  // ---- the abstract deque ---------------------------------------------------

  datatype Event = Quiet | Append(x: nat) | TakeLast(x: nat) | TakeFirst(x: nat)

  ghost predicate Abstract(c: seq<nat>, e: Event, c': seq<nat>) {
    match e
    case Quiet => c' == c
    case Append(x) => c' == c + [x] && |c| < SIZE
    case TakeLast(x) => c == c' + [x]
    case TakeFirst(x) => c == [x] + c'
  }

  /** What a step does to the abstract deque; the value is the one that the code
      stores or goes on to return. */
  function EventOf(s: State, a: Step): Event
    requires Enabled(s, a) && |s.entries| == SIZE
  {
    match a
    case Store => Append(s.owner.x)
    case Look => (match OwnerLook(s) case Popped(r) => (if r.Some? then TakeLast(r.value) else Quiet) case _ => Quiet)
    case Race => if s.top == s.owner.t then TakeLast(s.owner.v) else Quiet
    case Swap(i) => if s.top == s.thieves[i].t then TakeFirst(s.thieves[i].v) else Quiet
    case _ => Quiet
  }

  /** The thief's compare-and-swap is not fooled by a counter that has come round. */
  predicate NotLapped(s: State, a: Step)
    requires Enabled(s, a)
  {
    a.Swap? ==> s.low == s.thieves[a.i].at || (s.low - s.thieves[a.i].at) % 256 != 0
  }

  // ---- spans ----------------------------------------------------------------

  lemma SlotsApart(low: nat, i: nat, n: nat)
    requires i < n < SIZE
    ensures (low + i) % SIZE != (low + n) % SIZE
  {
  }

  lemma SpanWrite(entries: seq<nat>, low: nat, n: nat, x: nat)
    requires |entries| == SIZE && n < SIZE
    ensures Span(entries[(low + n) % SIZE := x], low, n) == Span(entries, low, n)
  {
    forall i | 0 <= i < n
      ensures Span(entries[(low + n) % SIZE := x], low, n)[i] == Span(entries, low, n)[i]
    {
      SlotsApart(low, i, n);
    }
  }

  lemma SpanLast(entries: seq<nat>, low: nat, n: nat)
    requires |entries| == SIZE && n > 0
    ensures Span(entries, low, n) == Span(entries, low, n - 1) + [entries[(low + n - 1) % SIZE]]
  {
  }

  lemma SpanFirst(entries: seq<nat>, low: nat, n: nat)
    requires |entries| == SIZE && n > 0
    ensures Span(entries, low, n) == [entries[low % SIZE]] + Span(entries, low + 1, n - 1)
  {
    var c, d := Span(entries, low, n), Span(entries, low + 1, n - 1);
    forall i | 0 < i < n ensures c[i] == d[i - 1] { assert low + i == low + 1 + (i - 1); }
  }

  // ---- every step refines the abstract deque --------------------------------

  lemma ThievesStay(s: State, s': State)
    requires Inv(s) && s'.thieves == s.thieves && s'.low == s.low && |s'.entries| == SIZE
    requires Held(s) > 0 ==> Held(s') > 0 && s'.entries[s.low % SIZE] == s.entries[s.low % SIZE]
    ensures forall i :: 0 <= i < |s.thieves| ==> ThiefOk(s', s.thieves[i])
  {
    hide Byte, Next, Prev, Held;
    forall i | 0 <= i < |s.thieves| ensures ThiefOk(s', s.thieves[i]) { assert ThiefOk(s, s.thieves[i]); }
  }

  /** Once `low` has moved, every thief that read it before is out of date. */
  lemma ThievesPass(s: State, s': State)
    requires Inv(s) && s'.thieves == s.thieves && s'.low == s.low + 1 && |s'.entries| == SIZE
    ensures forall i :: 0 <= i < |s.thieves| ==> ThiefOk(s', s.thieves[i])
  {
    hide Byte, Next, Prev, Held;
    forall i | 0 <= i < |s.thieves| ensures ThiefOk(s', s.thieves[i]) { assert ThiefOk(s, s.thieves[i]); }
  }

  ghost predicate Refines(s: State, a: Step) {
    && Inv(s) && Enabled(s, a) && Inv(Do(s, a))
    && Abstract(Content(s), EventOf(s, a), Content(Do(s, a)))
  }

  /** The test is exact: enqueue refuses if and only if 128 tasks are held. */
  lemma FullTest(s: State)
    requires Inv(s) && !s.owner.Reserved? && !s.owner.Restoring? && !s.owner.Racing? && !s.owner.Closing?
    ensures LooksFull(s.bottom, s.top) <==> |Content(s)| == SIZE
  {
    hide Byte, Next, Prev;
    Opposite(s.high, s.low);
  }

  lemma CheckRefines(s: State)
    requires Inv(s) && Enabled(s, Check)
    ensures Refines(s, Check)
  {
    FullTest(s);
    hide Byte, Next, Prev, LooksFull, Slot;
    ThievesStay(s, Do(s, Check));
  }

  lemma WriteRefines(s: State)
    requires Inv(s) && Enabled(s, Write)
    ensures Refines(s, Write)
  {
    var s' := Do(s, Write);
    SlotOf(s.high);
    hide Byte, Next, Prev, Slot, Span;
    assert s.high == s.low + Held(s);
    SpanWrite(s.entries, s.low, Held(s), s.owner.x);
    if Held(s) > 0 { SlotsApart(s.low, 0, Held(s)); }
    ThievesStay(s, s');
  }

  lemma StoreRefines(s: State)
    requires Inv(s) && Enabled(s, Store)
    ensures Refines(s, Store)
  {
    var s' := Do(s, Store);
    Increment(s.high);
    hide Byte, Next, Prev, Slot;
    SpanLast(s.entries, s.low, Held(s) + 1);
    assert s.low + Held(s) == s.high;
    ThievesStay(s, s');
  }

  /** The comparisons of dequeue_front, on the counters. */
  lemma LookTest(s: State)
    requires Inv(s) && s.owner == Reserved
    ensures Next(s.bottom) == s.top <==> Held(s) == 0
    ensures s.bottom == s.top <==> Held(s) == 1
    ensures Slot(s.bottom) == s.high % SIZE && Next(s.bottom) == Byte(s.high + 1)
  {
    Increment(s.high);
    SlotOf(s.high);
    SameByte(s.high + 1, s.low);
    SameByte(s.high, s.low);
    hide Byte, Next, Prev, Slot;
  }

  lemma LookRefines(s: State)
    requires Inv(s) && Enabled(s, Look)
    ensures Refines(s, Look)
  {
    var s' := Do(s, Look);
    LookTest(s);
    hide Byte, Next, Prev, Slot;
    if Held(s) >= 2 {
      SpanLast(s.entries, s.low, Held(s));
      assert s.low + Held(s) - 1 == s.high;
    }
    ThievesStay(s, s');
  }

  lemma RaceRefines(s: State)
    requires Inv(s) && Enabled(s, Race)
    ensures Refines(s, Race)
  {
    var s' := Do(s, Race);
    SameByte(s.low, s.high);
    Increment(s.low);
    hide Byte, Next, Prev, Slot;
    if Held(s) == 1 {
      SpanLast(s.entries, s.low, 1);
      assert s.low + 1 - 1 == s.high;
      ThievesPass(s, s');
    } else {
      ThievesStay(s, s');
    }
  }

  /** Starting dequeue_front, its two ends, and the return. */
  lemma BottomRefines(s: State, a: Step)
    requires Inv(s) && Enabled(s, a) && (a.Enqueue? || a.Dequeue? || a.Restore? || a.Close? || a.Return?)
    ensures Refines(s, a)
  {
    Decrement(s.high);
    Increment(s.high);
    hide Byte, Next, Prev, Slot;
    ThievesStay(s, Do(s, a));
  }

  /** The test of dequeue_back, for a thief that is not out of date. */
  lemma EmptyTest(s: State, n: nat)
    requires CountersOk(s) && n == s.low
    ensures LooksEmpty(s.bottom, Byte(n)) <==> s.high <= s.low
  {
    Increment(s.high);
    SameByte(s.high, n);
    SameByte(s.high + 1, n);
    hide Byte, Next, Prev, Slot;
  }

  lemma OneThief(s: State, s': State, i: nat)
    requires Inv(s) && i < |s.thieves| == |s'.thieves| && s' == s.(thieves := s'.thieves)
    requires s'.thieves == s.thieves[i := s'.thieves[i]]
    requires ThiefOk(s, s'.thieves[i])
    ensures Inv(s') && Content(s') == Content(s)
  {
    hide Byte, Next, Prev, Span, OwnerOk;
    assert OwnerOk(s') by { SameOwner(s, s'); }
    forall j | 0 <= j < |s'.thieves| ensures ThiefOk(s', s'.thieves[j]) {
      if j != i { assert ThiefOk(s, s.thieves[j]); }
    }
  }

  lemma SameOwner(s: State, s': State)
    requires |s.entries| == SIZE && OwnerOk(s) && s' == s.(thieves := s'.thieves)
    ensures OwnerOk(s')
  {
    hide Byte, Next, Prev;
  }

  lemma ReadRefines(s: State, a: Step)
    requires Inv(s) && Enabled(s, a) && ByThief(a) && !a.Swap?
    ensures Refines(s, a)
  {
    var h := s.thieves[a.i];
    assert ThiefOk(s, h);
    if a.ReadBottom? && h.at == s.low { EmptyTest(s, s.low); }
    if a.ReadEntry? { SlotOf(h.at); }
    hide Byte, Next, Prev, Slot, LooksEmpty, Span, Inv;
    InvParts(s);
    OneThief(s, Do(s, a), a.i);
  }

  lemma InvParts(s: State)
    requires Inv(s)
    ensures |s.entries| == SIZE && 0 <= Held(s) <= SIZE && s.top == Byte(s.low)
  {
  }

  /** A thief whose compare-and-swap is not fooled takes the first element. */
  lemma SwapRefines(s: State, i: nat)
    requires Inv(s) && Enabled(s, Swap(i)) && NotLapped(s, Swap(i))
    ensures Refines(s, Swap(i))
    ensures s.top != s.thieves[i].t <==> s.low > s.thieves[i].at
  {
    var h := s.thieves[i];
    assert ThiefOk(s, h);
    SameByte(s.low, h.at);
    InvParts(s);
    hide Byte, Next, Prev, Slot, Inv, Refines, Do, Held;
    if h.at == s.low { SwapWins(s, i); } else { SwapLoses(s, i); }
  }

  lemma SwapWins(s: State, i: nat)
    requires Inv(s) && Enabled(s, Swap(i)) && s.thieves[i].at == s.low && s.thieves[i].t == s.top
    ensures Refines(s, Swap(i))
  {
    var s', h := Do(s, Swap(i)), s.thieves[i];
    assert ThiefOk(s, h);
    Increment(s.low);
    hide Byte, Next, Prev, Slot;
    SpanFirst(s.entries, s.low, Held(s));
    ThievesPass(s, s'.(thieves := s.thieves));
    assert ThiefOk(s', Stolen(Some(h.v)));
  }

  lemma SwapLoses(s: State, i: nat)
    requires Inv(s) && Enabled(s, Swap(i)) && s.thieves[i].t != s.top
    ensures Refines(s, Swap(i))
  {
    InvParts(s);
    hide Byte, Next, Prev, Slot, Inv, Span;
    OneThief(s, Do(s, Swap(i)), i);
  }

  /** The deque is linearizable: every step of owner and thieves leaves the abstract
      sequence alone, appends at the end, or removes at an end what it returns. */
  lemma StepRefines(s: State, a: Step)
    requires Inv(s) && Enabled(s, a) && NotLapped(s, a)
    ensures Refines(s, a)
  {
    hide Inv, Refines, NotLapped;
    if a.Swap? { SwapRefines(s, a.i); }
    else if ByThief(a) { ReadRefines(s, a); }
    else if a.Check? { CheckRefines(s); }
    else if a.Write? { WriteRefines(s); }
    else if a.Store? { StoreRefines(s); }
    else if a.Look? { LookRefines(s); }
    else if a.Race? { RaceRefines(s); }
    else { BottomRefines(s, a); }
  }
}
