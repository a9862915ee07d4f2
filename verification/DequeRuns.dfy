/** Whole runs of the work-stealing deque: what the steps add up to, what a failed
    dequeue_front tells, and what happens when a thief's counter comes round. */
module DequeRuns {
  import opened Bytes
  import opened Deque

  ghost function Init(thieves: nat): State {
    State(Byte(0), Byte(0), seq(SIZE, _ => 0), Resting, seq(thieves, _ => Away), 0, 0)
  }

  ghost predicate Took(s: State, a: Step, s': State) {
    Enabled(s, a) && |s.entries| == SIZE && s' == Do(s, a)
  }

  ghost predicate IsRun(thieves: nat, tr: seq<State>, steps: seq<Step>) {
    && |tr| == |steps| + 1 && tr[0] == Init(thieves)
    && forall i :: 0 <= i < |steps| ==> Took(tr[i], steps[i], tr[i + 1])
  }

  /** Fewer than 256 advances of `top` between a thief's read of it and its swap. */
  ghost predicate BoundedStaleness(tr: seq<State>, steps: seq<Step>) {
    forall i :: 0 <= i < |steps| && i < |tr| && steps[i].Swap? && Enabled(tr[i], steps[i]) ==>
      tr[i].low - tr[i].thieves[steps[i].i].at < 256
  }

  /** What the deque holds; nothing, should a fooled swap have left it with less. */
  function Contents(s: State): seq<nat> { if |s.entries| == SIZE && Held(s) >= 0 then Content(s) else [] }

  /** A swap is fair if it is not fooled, or the entry it read is the first again. */
  predicate Fair(s: State, a: Step)
    requires Enabled(s, a)
  {
    NotLapped(s, a) || (a.Swap? && Contents(s) != [] && Contents(s)[0] == s.thieves[a.i].v)
  }

  ghost predicate FairSwaps(tr: seq<State>, steps: seq<Step>, n: nat) {
    forall i :: 0 <= i < n && i < |steps| && i < |tr| && Enabled(tr[i], steps[i]) ==> Fair(tr[i], steps[i])
  }

  ghost predicate AllFair(tr: seq<State>, steps: seq<Step>) { FairSwaps(tr, steps, |steps|) }

  lemma FairUpTo(tr: seq<State>, steps: seq<Step>, n: nat)
    requires AllFair(tr, steps)
    ensures FairSwaps(tr, steps, n)
  {
    hide Fair;
  }

  lemma InitInv(thieves: nat)
    ensures Inv(Init(thieves)) && Content(Init(thieves)) == []
  {
    hide Byte;
  }

  lemma RunStep(thieves: nat, tr: seq<State>, steps: seq<Step>, n: nat)
    requires IsRun(thieves, tr, steps) && n < |steps|
    ensures |tr| == |steps| + 1 && Enabled(tr[n], steps[n]) && |tr[n].entries| == SIZE && tr[n + 1] == Do(tr[n], steps[n])
  {
    hide Enabled, Do, Init;
    assert Took(tr[n], steps[n], tr[n + 1]);
  }

  /** The hypothesis is exact: a swap refines the abstract deque if and only if it is
      fair. */
  lemma LapIsExact(s: State, i: nat)
    requires Inv(s) && Enabled(s, Swap(i))
    ensures Refines(s, Swap(i)) <==> Fair(s, Swap(i))
  {
    InvParts(s);
    if NotLapped(s, Swap(i)) {
      hide Inv, Refines, NotLapped;
      SwapRefines(s, i);
    } else {
      LappedSwap(s, i);
    }
  }

  lemma LappedSwap(s: State, i: nat)
    requires Inv(s) && Enabled(s, Swap(i)) && !NotLapped(s, Swap(i))
    ensures Refines(s, Swap(i)) <==> Content(s) != [] && Content(s)[0] == s.thieves[i].v
  {
    var s', h := Do(s, Swap(i)), s.thieves[i];
    assert ThiefOk(s, h);
    SameByte(s.low, h.at);
    Increment(s.low);
    hide Byte, Next, Prev, Slot;
    if Content(s) != [] {
      SpanFirst(s.entries, s.low, Held(s));
      ThievesPass(s, s'.(thieves := s.thieves));
      assert ThiefOk(s', Stolen(Some(h.v)));
      if Content(s)[0] == h.v { assert Content(s) == [h.v] + Content(s'); }
    }
  }

  lemma FairRefines(s: State, a: Step)
    requires Inv(s) && Enabled(s, a) && Fair(s, a)
    ensures Refines(s, a)
  {
    hide Inv, Refines, NotLapped, Contents;
    if a.Swap? { LapIsExact(s, a.i); } else { StepRefines(s, a); }
  }

  lemma {:induction false} FairInv(thieves: nat, tr: seq<State>, steps: seq<Step>, n: nat)
    requires IsRun(thieves, tr, steps) && FairSwaps(tr, steps, n) && n < |tr|
    ensures Inv(tr[n])
  {
    hide Inv, Do, Enabled, Init, Fair;
    if n == 0 {
      InitInv(thieves);
    } else {
      FairInv(thieves, tr, steps, n - 1);
      RunStep(thieves, tr, steps, n - 1);
      FairRefines(tr[n - 1], steps[n - 1]);
    }
  }

  lemma {:induction false} RunInv(thieves: nat, tr: seq<State>, steps: seq<Step>, n: nat)
    requires IsRun(thieves, tr, steps) && AllFair(tr, steps) && n < |tr|
    ensures Inv(tr[n])
  {
    FairUpTo(tr, steps, n);
    FairInv(thieves, tr, steps, n);
  }

  lemma {:induction false} StalenessSuffices(thieves: nat, tr: seq<State>, steps: seq<Step>, n: nat)
    requires IsRun(thieves, tr, steps) && BoundedStaleness(tr, steps) && n < |tr|
    ensures Inv(tr[n]) && (n < |steps| ==> Enabled(tr[n], steps[n]) && NotLapped(tr[n], steps[n]))
    ensures FairSwaps(tr, steps, n)
  {
    hide Do, Init, Byte;
    if n == 0 {
      InitInv(thieves);
    } else {
      StalenessSuffices(thieves, tr, steps, n - 1);
      RunStep(thieves, tr, steps, n - 1);
      hide Inv;
      StepRefines(tr[n - 1], steps[n - 1]);
    }
    if n < |steps| {
      RunStep(thieves, tr, steps, n);
      if steps[n].Swap? { ThiefBehind(tr[n], steps[n].i); }
    }
  }

  lemma ThiefBehind(s: State, i: nat)
    requires Inv(s) && i < |s.thieves| && s.thieves[i].SawEntry?
    ensures s.thieves[i].at <= s.low
  {
    assert ThiefOk(s, s.thieves[i]);
  }

  // ---- the abstract history -------------------------------------------------

  function Log(tr: seq<State>, steps: seq<Step>, n: nat): (log: seq<Event>)
    requires n <= |steps| && n < |tr|
    requires forall i :: 0 <= i < n ==> Enabled(tr[i], steps[i]) && |tr[i].entries| == SIZE
    ensures |log| == n
  {
    if n == 0 then [] else Log(tr, steps, n - 1) + [EventOf(tr[n - 1], steps[n - 1])]
  }

  /** c is what the events leave of an empty sequence. */
  ghost predicate Explains(log: seq<Event>, c: seq<nat>) {
    if log == [] then c == []
    else
      var before, last := log[..|log| - 1], log[|log| - 1];
      exists c0 :: Explains(before, c0) && Abstract(c0, last, c)
  }

  lemma RunEnabled(thieves: nat, tr: seq<State>, steps: seq<Step>)
    requires IsRun(thieves, tr, steps)
    ensures forall i :: 0 <= i < |steps| ==> Enabled(tr[i], steps[i]) && |tr[i].entries| == SIZE
  {
    hide Enabled, Do, Init;
    forall i | 0 <= i < |steps| ensures Enabled(tr[i], steps[i]) && |tr[i].entries| == SIZE {
      RunStep(thieves, tr, steps, i);
    }
  }

  /** Refinement of a sequence that only its owner appends to and takes from at the
      end, and from which thieves take at the front. */
  lemma {:induction false} DequeRefinement(thieves: nat, tr: seq<State>, steps: seq<Step>, n: nat)
    requires IsRun(thieves, tr, steps) && AllFair(tr, steps) && n < |tr|
    ensures forall i :: 0 <= i < |steps| ==> Enabled(tr[i], steps[i]) && |tr[i].entries| == SIZE
    ensures Inv(tr[n]) && Explains(Log(tr, steps, n), Content(tr[n]))
  {
    hide Inv, Do, Enabled, Init, Fair, Abstract, EventOf, Content;
    RunEnabled(thieves, tr, steps);
    RunInv(thieves, tr, steps, n);
    InvParts(tr[n]);
    if n == 0 {
      InitInv(thieves);
    } else {
      DequeRefinement(thieves, tr, steps, n - 1);
      RunStep(thieves, tr, steps, n - 1);
      FairRefines(tr[n - 1], steps[n - 1]);
      InvParts(tr[n - 1]);
      var log := Log(tr, steps, n);
      assert log[..|log| - 1] == Log(tr, steps, n - 1);
      assert Abstract(Content(tr[n - 1]), log[|log| - 1], Content(tr[n]));
    }
  }

  // ---- conservation ---------------------------------------------------------

  function One(r: Option<nat>, x: nat): nat { if r == Some(x) then 1 else 0 }

  /** How often the owner, and the first n thieves, hold x: taken off the deque but
      not handed to the caller yet. */
  function OwnerHand(o: Owner, x: nat): nat {
    if o.Closing? || o.Popped? then One(o.r, x) else 0
  }

  function ThiefHand(h: Thief, x: nat): nat {
    if h.Stolen? then One(h.r, x) else 0
  }

  function ThiefHands(hs: seq<Thief>, n: nat, x: nat): nat
    requires n <= |hs|
  {
    if n == 0 then 0 else ThiefHands(hs, n - 1, x) + ThiefHand(hs[n - 1], x)
  }

  function InHands(s: State, x: nat): nat {
    OwnerHand(s.owner, x) + ThiefHands(s.thieves, |s.thieves|, x)
  }

  /** How often x is in c. */
  function Count(c: seq<nat>, x: nat): nat { multiset(c)[x] }

  /** Does the step make x visible, and does it return x to a caller? */
  function Stored(s: State, a: Step, x: nat): nat
    requires Enabled(s, a)
  {
    if a.Store? && s.owner.x == x then 1 else 0
  }

  function Given(s: State, a: Step, x: nat): nat
    requires Enabled(s, a)
  {
    if a.Return? then One(s.owner.r, x) else if a.Leave? then One(s.thieves[a.i].r, x) else 0
  }

  lemma {:induction false} HandsUpdate(hs: seq<Thief>, i: nat, h: Thief, n: nat, x: nat)
    requires i < |hs| && n <= |hs|
    ensures ThiefHands(hs[i := h], n, x) + (if i < n then ThiefHand(hs[i], x) else 0)
         == ThiefHands(hs, n, x) + (if i < n then ThiefHand(h, x) else 0)
  {
    if n > 0 { HandsUpdate(hs, i, h, n - 1, x); }
  }

  /** What an event adds to and takes from the abstract deque. */
  function Puts(e: Event, x: nat): nat { if e == Append(x) then 1 else 0 }

  function Takes(e: Event, x: nat): nat { if e == TakeLast(x) || e == TakeFirst(x) then 1 else 0 }

  lemma AbstractCounts(c: seq<nat>, e: Event, c': seq<nat>, x: nat)
    requires Abstract(c, e, c')
    ensures Count(c', x) + Takes(e, x) == Count(c, x) + Puts(e, x)
  {
  }

  lemma StepHands(s: State, a: Step, x: nat)
    requires Enabled(s, a) && |s.entries| == SIZE
    ensures InHands(Do(s, a), x) + Given(s, a, x) == InHands(s, x) + Takes(EventOf(s, a), x)
    ensures Puts(EventOf(s, a), x) == Stored(s, a, x)
  {
    if ByThief(a) { HandsUpdate(s.thieves, a.i, Do(s, a).thieves[a.i], |s.thieves|, x); }
    hide Byte, Next, Prev, Slot, ThiefHands;
  }

  function Added(tr: seq<State>, steps: seq<Step>, n: nat, x: nat): nat
    requires n <= |steps| && n < |tr| && forall i :: 0 <= i < n ==> Enabled(tr[i], steps[i])
  {
    if n == 0 then 0 else Added(tr, steps, n - 1, x) + Stored(tr[n - 1], steps[n - 1], x)
  }

  function Returned(tr: seq<State>, steps: seq<Step>, n: nat, x: nat): nat
    requires n <= |steps| && n < |tr| && forall i :: 0 <= i < n ==> Enabled(tr[i], steps[i])
  {
    if n == 0 then 0 else Returned(tr, steps, n - 1, x) + Given(tr[n - 1], steps[n - 1], x)
  }

  /** Task x has been stored as often as it has been returned, is about to be, or is held. */
  ghost predicate Balanced(tr: seq<State>, steps: seq<Step>, n: nat, x: nat)
    requires n <= |steps| && n < |tr| && forall i :: 0 <= i < n ==> Enabled(tr[i], steps[i])
  {
    Added(tr, steps, n, x) == Returned(tr, steps, n, x) + InHands(tr[n], x) + Count(Contents(tr[n]), x)
  }

  lemma {:induction false} FairBalance(thieves: nat, tr: seq<State>, steps: seq<Step>, n: nat, x: nat)
    requires IsRun(thieves, tr, steps) && FairSwaps(tr, steps, n) && n < |tr|
    ensures forall i :: 0 <= i < |steps| ==> Enabled(tr[i], steps[i]) && |tr[i].entries| == SIZE
    ensures |tr| == |steps| + 1 && Inv(tr[n]) && Balanced(tr, steps, n, x)
  {
    hide Inv, Do, Enabled, Fair, Content, Stored, Given, InHands, Init, Abstract, EventOf, Takes, Puts;
    RunEnabled(thieves, tr, steps);
    FairInv(thieves, tr, steps, n);
    InvParts(tr[n]);
    if n == 0 {
      InitInv(thieves);
      NoHands(thieves, x);
    } else {
      FairBalance(thieves, tr, steps, n - 1, x);
      RunStep(thieves, tr, steps, n - 1);
      InvParts(tr[n - 1]);
      FairRefines(tr[n - 1], steps[n - 1]);
      StepHands(tr[n - 1], steps[n - 1], x);
      AbstractCounts(Content(tr[n - 1]), EventOf(tr[n - 1], steps[n - 1]), Content(tr[n]), x);
    }
  }

  /** Nothing is lost and nothing is returned twice: in every state of every run, a
      task has been stored as often as it has been returned, is about to be, or is held. */
  lemma {:induction false} Conservation(thieves: nat, tr: seq<State>, steps: seq<Step>, n: nat, x: nat)
    requires IsRun(thieves, tr, steps) && AllFair(tr, steps) && n < |tr|
    ensures forall i :: 0 <= i < |steps| ==> Enabled(tr[i], steps[i]) && |tr[i].entries| == SIZE
    ensures |tr| == |steps| + 1 && Inv(tr[n])
    ensures Added(tr, steps, n, x) == Returned(tr, steps, n, x) + InHands(tr[n], x) + Count(Content(tr[n]), x)
  {
    FairUpTo(tr, steps, n);
    FairBalance(thieves, tr, steps, n, x);
    hide IsRun, AllFair, Content, InHands, Added, Returned;
    InvParts(tr[n]);
  }

  /** A thief that is lapped wins its swap. */
  lemma LappedWins(s: State, a: Step)
    requires Inv(s) && Enabled(s, a) && |s.entries| == SIZE && !NotLapped(s, a)
    ensures a.Swap? && s.top == s.thieves[a.i].t && 0 <= Held(s) && s.low > s.thieves[a.i].at
    ensures Do(s, a) == s.(top := Next(s.top), low := s.low + 1, thieves := s.thieves[a.i := Stolen(Some(s.thieves[a.i].v))])
  {
    assert ThiefOk(s, s.thieves[a.i]);
    SameByte(s.low, s.thieves[a.i].at);
    hide Byte, Next, Prev, Slot, OwnerOk;
  }

  /** What a swap that wins leaves of the contents. */
  lemma FirstGone(s: State, s': State)
    requires |s.entries| == SIZE && s'.entries == s.entries && s'.owner == s.owner && s'.high == s.high && s'.low == s.low + 1
    requires Held(s) >= 0
    ensures if Held(s) > 0 then Contents(s) != [] && Contents(s) == [Contents(s)[0]] + Contents(s') else Contents(s) == [] && Contents(s') == []
  {
    hide Span;
    if Held(s) > 0 { SpanFirst(s.entries, s.low, Held(s)); }
  }

  lemma CountFirst(c: seq<nat>, x: nat, y: nat)
    requires x != y
    ensures Count([x] + c, y) == Count(c, y)
  {
  }

  /** A swap that is not fair adds its entry to the hands and takes nothing like it from
      the deque. */
  lemma UnfairSwap(s: State, a: Step)
    requires Inv(s) && Enabled(s, a) && |s.entries| == SIZE && !Fair(s, a)
    ensures a.Swap?
    ensures var v, s' := s.thieves[a.i].v, Do(s, a);
      && InHands(s', v) == InHands(s, v) + 1 && Count(Contents(s'), v) == Count(Contents(s), v)
      && Stored(s, a, v) == 0 && Given(s, a, v) == 0
  {
    hide Inv, Do, Contents, InHands, Count, Held;
    LappedWins(s, a);
    var v := s.thieves[a.i].v;
    StepHands(s, a, v);
    FirstGone(s, Do(s, a));
    if Contents(s) != [] { CountFirst(Contents(Do(s, a)), Contents(s)[0], v); }
  }

  lemma UnfairUnbalances(tr: seq<State>, steps: seq<Step>, n: nat) returns (x: nat)
    requires |tr| == |steps| + 1 && n < |steps| && (forall i :: 0 <= i < |steps| ==> Enabled(tr[i], steps[i]))
    requires Inv(tr[n]) && |tr[n].entries| == SIZE && tr[n + 1] == Do(tr[n], steps[n]) && !Fair(tr[n], steps[n])
    ensures Balanced(tr, steps, n, x) ==> !Balanced(tr, steps, n + 1, x)
  {
    var s, a := tr[n], steps[n];
    UnfairSwap(s, a);
    x := s.thieves[a.i].v;
    hide Inv, Do, Enabled, Fair, Contents, Stored, Given, InHands, Count;
  }

  lemma {:induction false} BalanceIsFair(thieves: nat, tr: seq<State>, steps: seq<Step>, n: nat)
    requires IsRun(thieves, tr, steps) && n < |tr| && forall i :: 0 <= i < |steps| ==> Enabled(tr[i], steps[i])
    requires |tr| == |steps| + 1 && forall m, x: nat :: 0 <= m <= n ==> Balanced(tr, steps, m, x)
    ensures FairSwaps(tr, steps, n)
  {
    if n > 0 {
      BalanceIsFair(thieves, tr, steps, n - 1);
      hide Inv, Do, Enabled, Fair, Balanced, Init, IsRun;
      FairInv(thieves, tr, steps, n - 1);
      RunStep(thieves, tr, steps, n - 1);
      if !Fair(tr[n - 1], steps[n - 1]) { var x := UnfairUnbalances(tr, steps, n - 1); }
    }
  }

  /** Exactly when nothing is lost and nothing returned twice, over whole runs: up to state
      n every task is balanced if and only if every swap before was not fooled, or took
      what was first at that moment. */
  lemma {:induction false} ConservationIsExact(thieves: nat, tr: seq<State>, steps: seq<Step>, n: nat)
    requires IsRun(thieves, tr, steps) && n < |tr|
    ensures |tr| == |steps| + 1 && forall i :: 0 <= i < |steps| ==> Enabled(tr[i], steps[i])
    ensures (forall m, x: nat :: 0 <= m <= n ==> Balanced(tr, steps, m, x)) <==> FairSwaps(tr, steps, n)
  {
    RunEnabled(thieves, tr, steps);
    hide IsRun, Enabled, Balanced, Fair;
    RunLength(thieves, tr, steps);
    if FairSwaps(tr, steps, n) {
      forall m, x: nat | 0 <= m <= n ensures Balanced(tr, steps, m, x) { FairBalance(thieves, tr, steps, m, x); }
    }
    if forall m, x: nat :: 0 <= m <= n ==> Balanced(tr, steps, m, x) { BalanceIsFair(thieves, tr, steps, n); }
  }

  lemma RunLength(thieves: nat, tr: seq<State>, steps: seq<Step>)
    requires IsRun(thieves, tr, steps)
    ensures |tr| == |steps| + 1
  {
  }

  lemma NoHands(thieves: nat, x: nat)
    ensures InHands(Init(thieves), x) == 0
  {
    hide Byte;
    NoThiefHands(Init(thieves).thieves, thieves, x);
  }

  lemma {:induction false} NoThiefHands(hs: seq<Thief>, n: nat, x: nat)
    requires n <= |hs| && forall i :: 0 <= i < |hs| ==> !hs[i].Stolen?
    ensures ThiefHands(hs, n, x) == 0
  {
    if n > 0 { NoThiefHands(hs, n - 1, x); }
  }

  /** The unbounded counters stay within -1..128 of each other, so the bytes tell a
      full queue from every other one. */
  lemma CountersWithin(thieves: nat, tr: seq<State>, steps: seq<Step>, n: nat)
    requires IsRun(thieves, tr, steps) && AllFair(tr, steps) && n < |tr|
    ensures -1 <= tr[n].high - tr[n].low <= SIZE
    ensures LooksFull(tr[n].bottom, tr[n].top) <==> tr[n].high - tr[n].low == SIZE
  {
    RunInv(thieves, tr, steps, n);
    hide *;
    CountersAt(tr[n]);
  }

  lemma CountersAt(s: State)
    requires Inv(s)
    ensures -1 <= s.high - s.low <= SIZE && (LooksFull(s.bottom, s.top) <==> s.high - s.low == SIZE)
  {
    hide Byte, OwnerOk, ThiefOk;
    Opposite(s.high, s.low);
  }

  // ---- a NULL from dequeue_front --------------------------------------------

  lemma EmptyStays(s: State, a: Step)
    requires Inv(s) && Enabled(s, a) && Fair(s, a) && Content(s) == [] && !a.Store?
    ensures Inv(Do(s, a)) && Content(Do(s, a)) == []
  {
    FairRefines(s, a);
    hide Inv, Do, Content, Byte, Slot;
  }

  /** After NULL the deque is empty until the owner stores the next task. */
  lemma {:induction false} NullMeansEmpty(thieves: nat, tr: seq<State>, steps: seq<Step>, m: nat, n: nat)
    requires IsRun(thieves, tr, steps) && AllFair(tr, steps) && m <= n < |tr| && tr[m].owner == Popped(None)
    requires forall i :: m <= i < n ==> !steps[i].Store?
    ensures Inv(tr[n]) && Content(tr[n]) == []
    decreases n
  {
    hide Inv, Do, Enabled, Fair, Content, Init;
    RunInv(thieves, tr, steps, n);
    InvParts(tr[n]);
    if n == m {
      PoppedNull(tr[n]);
    } else {
      NullMeansEmpty(thieves, tr, steps, m, n - 1);
      RunStep(thieves, tr, steps, n - 1);
      EmptyStays(tr[n - 1], steps[n - 1]);
    }
  }

  lemma PoppedNull(s: State)
    requires Inv(s) && s.owner == Popped(None)
    ensures Content(s) == []
  {
  }

  /** The assertion in pop_task: isEmpty_Queue holds although its two reads, of `bottom`
      in state m and of `top` in the later state n, may be far apart. */
  lemma {:induction false} IsEmptyHolds(thieves: nat, tr: seq<State>, steps: seq<Step>, m: nat, n: nat)
    requires IsRun(thieves, tr, steps) && AllFair(tr, steps) && m <= n < |tr| && tr[m].owner == Popped(None)
    requires forall i :: m <= i < n ==> ByThief(steps[i])
    ensures LooksEmpty(tr[m].bottom, tr[n].top)
  {
    hide *;
    RunInv(thieves, tr, steps, m);
    OwnerRests(thieves, tr, steps, m, n);
    RunInv(thieves, tr, steps, n);
    PoppedReads(tr[n]);
  }

  lemma PoppedReads(s: State)
    requires Inv(s) && s.owner == Popped(None)
    ensures LooksEmpty(s.bottom, s.top)
  {
    hide Byte, Slot;
  }

  lemma {:induction false} OwnerRests(thieves: nat, tr: seq<State>, steps: seq<Step>, m: nat, n: nat)
    requires IsRun(thieves, tr, steps) && m <= n < |tr| && forall i :: m <= i < n ==> ByThief(steps[i])
    ensures tr[n].owner == tr[m].owner && tr[n].bottom == tr[m].bottom && tr[n].high == tr[m].high
    decreases n
  {
    if m < n {
      OwnerRests(thieves, tr, steps, m, n - 1);
      RunStep(thieves, tr, steps, n - 1);
    }
    hide Byte, Next, Prev, Slot, IsRun;
  }

  // ---- what wrapping can do -------------------------------------------------

  /** Two thieves, and a run in which task 1 has been stored `added` times and
      returned `back` times. */
  ghost predicate Reach(s: State, added: nat, back: nat) {
    exists tr, steps :: Witness(tr, steps, s, added, back)
  }

  ghost predicate Witness(tr: seq<State>, steps: seq<Step>, s: State, added: nat, back: nat) {
    && IsRun(2, tr, steps) && |tr| == |steps| + 1 && tr[|steps|] == s
    && (forall i :: 0 <= i < |steps| ==> Enabled(tr[i], steps[i]))
    && Added(tr, steps, |steps|, 1) == added && Returned(tr, steps, |steps|, 1) == back
  }

  lemma {:induction false} CountsPrefix(tr: seq<State>, steps: seq<Step>, s: State, a: Step, n: nat)
    requires |tr| == |steps| + 1 && n <= |steps| && forall i :: 0 <= i < |steps| ==> Enabled(tr[i], steps[i])
    ensures Added(tr + [s], steps + [a], n, 1) == Added(tr, steps, n, 1)
    ensures Returned(tr + [s], steps + [a], n, 1) == Returned(tr, steps, n, 1)
  {
    hide Enabled, Stored, Given;
    if n > 0 { CountsPrefix(tr, steps, s, a, n - 1); }
  }

  lemma Go(s: State, a: Step, added: nat, back: nat)
    requires Reach(s, added, back) && Enabled(s, a) && |s.entries| == SIZE
    ensures Reach(Do(s, a), added + Stored(s, a, 1), back + Given(s, a, 1))
  {
    hide Enabled, Do, Stored, Given, Init;
    var tr, steps :| Witness(tr, steps, s, added, back);
    var s' := Do(s, a);
    var tr', steps' := tr + [s'], steps + [a];
    forall i | 0 <= i < |steps'| ensures Took(tr'[i], steps'[i], tr'[i + 1]) && Enabled(tr'[i], steps'[i]) {
      if i < |steps| { assert Took(tr[i], steps[i], tr[i + 1]); }
    }
    CountsPrefix(tr, steps, s', a, |steps|);
    assert Witness(tr', steps', s', added + Stored(s, a, 1), back + Given(s, a, 1));
  }

  /** The owner rests; the deque is empty, or holds one task. */
  function Bare(k: nat, e: seq<nat>, hs: seq<Thief>): State { State(Byte(k), Byte(k), e, Resting, hs, k, k) }

  function Loaded(k: nat, e: seq<nat>, hs: seq<Thief>): State {
    State(Byte(k + 1), Byte(k), e, Resting, hs, k, k + 1)
  }

  function One1(x: nat): nat { if x == 1 then 1 else 0 }

  /** Nobody else moves while the owner stores x in an empty deque. */
  lemma StoreOne(k: nat, e: seq<nat>, hs: seq<Thief>, x: nat, added: nat, back: nat)
    requires |e| == SIZE && Reach(Bare(k, e, hs), added, back)
    ensures Reach(Loaded(k, e[k % SIZE := x], hs), added + One1(x), back)
  {
    Opposite(k, k);
    Increment(k);
    SlotOf(k);
    hide Byte, Next, Prev, Slot, Reach;
    var s := State(Byte(k), Byte(k), e, Resting, hs, k, k);
    Go(s, Enqueue(x), added, back);
    Go(s.(owner := Adding(x)), Check, added, back);
    Go(s.(owner := Writing(x)), Write, added, back);
    Go(s.(owner := Storing(x), entries := e[k % SIZE := x]), Store, added, back);
  }

  /** Thief i reads top, bottom and the only entry. */
  lemma SeeOne(k: nat, e: seq<nat>, hs: seq<Thief>, i: nat, added: nat, back: nat)
    requires |e| == SIZE && i < |hs| && hs[i] == Away
    requires Reach(Loaded(k, e, hs), added, back)
    ensures Reach(Loaded(k, e, hs[i := SawEntry(Byte(k), k, e[k % SIZE])]), added, back)
  {
    SameByte(k + 1, k);
    SameByte(k + 2, k);
    Increment(k + 1);
    SlotOf(k);
    hide Byte, Next, Prev, Slot, Reach;
    var s := State(Byte(k + 1), Byte(k), e, Resting, hs, k, k + 1);
    Go(s, ReadTop(i), added, back);
    Go(s.(thieves := hs[i := SawTop(Byte(k), k)]), ReadBottom(i), added, back);
    assert hs[i := SawTop(Byte(k), k)][i := SawBoth(Byte(k), k)] == hs[i := SawBoth(Byte(k), k)];
    Go(s.(thieves := hs[i := SawBoth(Byte(k), k)]), ReadEntry(i), added, back);
    assert hs[i := SawBoth(Byte(k), k)][i := SawEntry(Byte(k), k, e[k % SIZE])] == hs[i := SawEntry(Byte(k), k, e[k % SIZE])];
  }

  /** Thief i takes it and returns. */
  lemma StealOne(k: nat, e: seq<nat>, hs: seq<Thief>, i: nat, x: nat, added: nat, back: nat)
    requires |e| == SIZE && i < |hs| && hs[i] == SawEntry(Byte(k), k, x)
    requires Reach(Loaded(k, e, hs), added, back)
    ensures Reach(Bare(k + 1, e, hs[i := Away]), added, back + One1(x))
  {
    Increment(k);
    hide Byte, Next, Prev, Slot, Reach;
    var s := State(Byte(k + 1), Byte(k), e, Resting, hs, k, k + 1);
    Go(s, Swap(i), added, back);
    var s1 := State(Byte(k + 1), Byte(k + 1), e, Resting, hs[i := Stolen(Some(x))], k + 1, k + 1);
    assert Do(s, Swap(i)) == s1;
    Go(s1, Leave(i), added, back);
    assert hs[i := Stolen(Some(x))][i := Away] == hs[i := Away];
  }

  /** n more tasks other than 1 pass through while thief 0 holds still. */
  lemma {:induction false} PassThrough(k: nat, n: nat, h: Thief, e: seq<nat>, added: nat, back: nat) returns (e': seq<nat>)
    requires |e| == SIZE && Reach(Bare(k, e, [h, Away]), added, back)
    ensures |e'| == SIZE && Reach(Bare(k + n, e', [h, Away]), added, back)
    decreases n
  {
    e' := e;
    if n > 0 {
      hide Byte, Reach, Bare, Loaded;
      PassOne(k, h, e, added, back);
      e' := PassThrough(k + 1, n - 1, h, e[k % SIZE := 0], added, back);
    }
  }

  lemma PassOne(k: nat, h: Thief, e: seq<nat>, added: nat, back: nat)
    requires |e| == SIZE && Reach(Bare(k, e, [h, Away]), added, back)
    ensures Reach(Bare(k + 1, e[k % SIZE := 0], [h, Away]), added, back)
  {
    hide Byte, Reach, Bare, Loaded;
    var f := e[k % SIZE := 0];
    StoreOne(k, e, [h, Away], 0, added, back);
    SeeOne(k, f, [h, Away], 1, added, back);
    var h1 := SawEntry(Byte(k), k, 0);
    assert [h, Away][1 := h1] == [h, h1] && [h, h1][1 := Away] == [h, Away];
    StealOne(k, f, [h, h1], 1, 0, added, back);
  }

  /** After exactly 256 advances a stale compare-and-swap succeeds: task 1 is stored
      once and returned twice. */
  lemma WrapCanDuplicate() returns (s: State)
    ensures Reach(s, 1, 2)
  {
    var e := StartBare();
    hide Byte, Reach, Bare, Loaded;
    var h := SawEntry(Byte(0), 0, 1);
    StoreOne(0, e, [Away, Away], 1, 0, 0);
    var f := e[0 := 1];
    SeeOne(0, f, [Away, Away], 0, 1, 0);
    assert [Away, Away][0 := h] == [h, Away];
    SeeOne(0, f, [h, Away], 1, 1, 0);
    assert [h, Away][1 := h] == [h, h] && [h, h][1 := Away] == [h, Away];
    StealOne(0, f, [h, h], 1, 1, 1, 0);
    var g := PassThrough(1, 255, h, f, 1, 1);
    s := SecondReturn(g, h);
  }

  lemma StartBare() returns (e: seq<nat>)
    ensures |e| == SIZE && Reach(Bare(0, e, [Away, Away]), 0, 0)
  {
    hide Byte;
    var s0 := Init(2);
    e := seq(SIZE, _ => 0);
    assert s0.thieves == [Away, Away];
    assert s0.entries == e;
    assert Witness([s0], [], s0, 0, 0);
  }

  lemma SecondReturn(e: seq<nat>, h: Thief) returns (s: State)
    requires |e| == SIZE && h == SawEntry(Byte(0), 0, 1) && Reach(Bare(256, e, [h, Away]), 1, 1)
    ensures Reach(s, 1, 2)
  {
    SameByte(256, 0);
    hide Byte, Reach, Next;
    var s1 := Bare(256, e, [h, Away]);
    Go(s1, Swap(0), 1, 1);
    var s2 := Do(s1, Swap(0));
    assert s2.thieves[0] == Stolen(Some(1));
    Go(s2, Leave(0), 1, 1);
    s := Do(s2, Leave(0));
  }
}
