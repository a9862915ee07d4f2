/** The three operations of src/queue.c on the array and the two bytes, with other
    threads interfering before every shared access. */
module DequeRuntime {
  import opened Bytes
  import opened Deque
  import opened DequeRuns

  datatype Who = TheOwner | TheThief(i: nat)

  predicate Mine(who: Who, a: Step) {
    match who
    case TheOwner => !ByThief(a)
    case TheThief(i) => ByThief(a) && a.i == i
  }

  /** What the other threads leave alone. */
  ghost predicate Keeps(who: Who, s: State, s': State) {
    && |s'.thieves| == |s.thieves| && |s'.entries| == |s.entries| && s.low <= s'.low
    && match who
       case TheOwner => s'.owner == s.owner && s'.bottom == s.bottom && s'.high == s.high && s'.entries == s.entries
       case TheThief(i) => i < |s.thieves| && s'.thieves[i] == s.thieves[i]
  }

  lemma RivalKeeps(who: Who, s: State, a: Step)
    requires Enabled(s, a) && |s.entries| == SIZE && !Mine(who, a) && (who.TheThief? ==> who.i < |s.thieves|)
    ensures Keeps(who, s, Do(s, a))
  {
    hide Byte, Next, Prev, Slot, LooksFull, LooksEmpty, OwnerLook;
  }

  // ---- a thread's own accesses -----------------------------------------------

  /** An access, and what it does to the abstract deque. */
  datatype Act = Act(a: Step, e: Event)

  function EventAt(s: State, a: Step): Event {
    if Enabled(s, a) && |s.entries| == SIZE then EventOf(s, a) else Quiet
  }

  /** The accesses of one thread among steps from, ..., n - 1. */
  function Own(who: Who, tr: seq<State>, steps: seq<Step>, from: nat, n: nat): (own: seq<Act>)
    requires n <= |steps| && n <= |tr|
  {
    if n <= from then []
    else
      Own(who, tr, steps, from, n - 1) + if Mine(who, steps[n - 1]) then [Act(steps[n - 1], EventAt(tr[n - 1], steps[n - 1]))] else []
  }

  /** From step `from` to the end of the history the thread has done exactly this. */
  ghost predicate Did(who: Who, tr: seq<State>, steps: seq<Step>, from: nat, own: seq<Act>) {
    from <= |steps| < |tr| && Own(who, tr, steps, from, |steps|) == own
  }

  lemma {:induction false} OwnPrefix(who: Who, tr: seq<State>, steps: seq<Step>, tr': seq<State>, steps': seq<Step>, from: nat, n: nat)
    requires tr <= tr' && steps <= steps' && n <= |steps| && n <= |tr|
    ensures Own(who, tr', steps', from, n) == Own(who, tr, steps, from, n)
  {
    hide EventAt, Mine;
    if n > from { OwnPrefix(who, tr, steps, tr', steps', from, n - 1); }
  }

  lemma {:induction false} OwnSplit(who: Who, tr: seq<State>, steps: seq<Step>, from: nat, m: nat, n: nat)
    requires from <= m <= n <= |steps| && n <= |tr|
    ensures Own(who, tr, steps, from, n) == Own(who, tr, steps, from, m) + Own(who, tr, steps, m, n)
  {
    hide EventAt, Mine;
    if m < n { OwnSplit(who, tr, steps, from, m, n - 1); }
  }

  lemma {:induction false} DidNothing(who: Who, tr: seq<State>, steps: seq<Step>)
    requires |steps| < |tr|
    ensures Did(who, tr, steps, |steps|, [])
  {
  }

  lemma DidThen(who: Who, tr: seq<State>, steps: seq<Step>, tr': seq<State>, steps': seq<Step>, from: nat, own: seq<Act>, more: seq<Act>, all: seq<Act>)
    requires tr <= tr' && steps <= steps' && Did(who, tr, steps, from, own) && Did(who, tr', steps', |steps|, more) && all == own + more
    ensures Did(who, tr', steps', from, all)
  {
    hide Own;
    OwnPrefix(who, tr, steps, tr', steps', from, |steps|);
    OwnSplit(who, tr', steps', from, |steps|, |steps'|);
  }

  lemma {:induction false} DidMore(who: Who, tr: seq<State>, steps: seq<Step>, from: nat, own: seq<Act>, s: State, a: Step)
    requires Did(who, tr, steps, from, own) && |tr| == |steps| + 1
    ensures Did(who, tr + [s], steps + [a], from, if Mine(who, a) then own + [Act(a, EventAt(tr[|steps|], a))] else own)
  {
    hide EventAt, Mine;
    OwnPrefix(who, tr, steps, tr + [s], steps + [a], from, |steps|);
  }

  /** An empty test that held: the thief read `top` first, and `bottom` later. */
  ghost predicate SawEmpty(tr: seq<State>, steps: seq<Step>, from: nat, i: nat) {
    exists m, n :: from <= m < n < |steps| && n < |tr| && steps[m] == ReadTop(i) && steps[n] == ReadBottom(i)
                   && LooksEmpty(tr[n].bottom, tr[m].top)
  }

  lemma SawEmptyStays(tr: seq<State>, steps: seq<Step>, tr': seq<State>, steps': seq<Step>, from: nat, i: nat)
    requires SawEmpty(tr, steps, from, i) && tr <= tr' && steps <= steps'
    ensures SawEmpty(tr', steps', from, i)
  {
    hide LooksEmpty;
    var m, n :| from <= m < n < |steps| && n < |tr| && steps[m] == ReadTop(i) && steps[n] == ReadBottom(i) && LooksEmpty(tr[n].bottom, tr[m].top);
    assert tr'[m] == tr[m] && tr'[n] == tr[n] && steps'[m] == steps[m] && steps'[n] == steps[n];
  }

  /** The accesses of enqueue. */
  function EnqueueActs(x: nat, ok: bool): seq<Act> {
    [Act(Step.Enqueue(x), Quiet), Act(Check, Quiet)] + if ok then [Act(Write, Quiet), Act(Store, Append(x))] else []
  }

  function TakeEvent(r: Option<nat>): Event { if r.Some? then TakeLast(r.value) else Quiet }

  /** Those of dequeue_front when it finds the deque empty, two or more elements, or one. */
  predicate FrontActs(own: seq<Act>, r: Option<nat>) {
    || (r == None && own == [Act(Dequeue, Quiet), Act(Look, Quiet), Act(Restore, Quiet), Act(Return, Quiet)])
    || (r.Some? && own == [Act(Dequeue, Quiet), Act(Look, TakeEvent(r)), Act(Return, Quiet)])
    || own == [Act(Dequeue, Quiet), Act(Look, Quiet), Act(Race, TakeEvent(r)), Act(Close, Quiet), Act(Return, Quiet)]
  }

  /** Those of dequeue_back: without a swap when the test finds nothing. */
  function BackActs(i: nat, code: int, retVal: Option<nat>): seq<Act> {
    [Act(ReadTop(i), Quiet), Act(ReadBottom(i), Quiet)]
    + (if code == 0 then [] else [Act(ReadEntry(i), Quiet), Act(Swap(i), if retVal.Some? then TakeFirst(retVal.value) else Quiet)])
    + [Act(Leave(i), Quiet)]
  }

  // ---- what happened ------------------------------------------------------------

  /** The event e is one of those from step `from` on. */
  ghost predicate Happened(tr: seq<State>, steps: seq<Step>, from: nat, e: Event) {
    exists m :: from <= m < |steps| && m < |tr| && Enabled(tr[m], steps[m]) && |tr[m].entries| == SIZE
                && EventOf(tr[m], steps[m]) == e
  }

  lemma HappenedStays(tr: seq<State>, tr': seq<State>, steps: seq<Step>, steps': seq<Step>, from: nat, e: Event)
    requires Happened(tr, steps, from, e) && tr <= tr' && steps <= steps'
    ensures Happened(tr', steps', from, e)
  {
    hide Enabled, EventOf;
    var m :| from <= m < |steps| && m < |tr| && Enabled(tr[m], steps[m]) && |tr[m].entries| == SIZE && EventOf(tr[m], steps[m]) == e;
    assert tr'[m] == tr[m] && steps'[m] == steps[m];
  }

  lemma HappensNow(tr: seq<State>, steps: seq<Step>, from: nat, m: nat, e: Event)
    requires from <= m < |steps| && m < |tr| && Enabled(tr[m], steps[m]) && |tr[m].entries| == SIZE
    requires EventOf(tr[m], steps[m]) == e
    ensures Happened(tr, steps, from, e)
  {
  }

  lemma HappenedEarlier(tr: seq<State>, steps: seq<Step>, from: nat, later: nat, e: Event)
    requires from <= later && Happened(tr, steps, later, e)
    ensures Happened(tr, steps, from, e)
  {
    hide Enabled, EventOf;
  }

  class WorkQueue {
    const thiefCount: nat
    var bottom: bv8
    var top: bv8
    const entries: array<nat>
    var owner: Owner               // where the owner is
    var thieves: seq<Thief>        // where the thieves are
    var low: nat                   // the counters behind top and bottom: not in the
    var high: int                  // source, and nothing is decided by them
    var schedule: seq<seq<Step>>   // what the other threads do, burst by burst
    ghost var trace: seq<State>
    ghost var steps: seq<Step>

    function View(): State
      reads this, entries
    {
      State(bottom, top, entries[..], owner, thieves, low, high)
    }

    /** The history is a run and ends in the present state. */
    ghost predicate Valid()
      reads this, entries
    {
      && entries.Length == SIZE && |thieves| == thiefCount
      && |trace| == |steps| + 1 && IsRun(thiefCount, trace, steps) && trace[|steps|] == View()
    }

    /** The history goes on from (tr, st). */
    ghost predicate GoesOn(tr: seq<State>, st: seq<Step>)
      reads this
    {
      tr <= trace && st <= steps
    }

    constructor (thiefCount: nat, schedule: seq<seq<Step>>)
      ensures Valid() && View() == Init(thiefCount) && fresh(entries)
    {
      this.thiefCount := thiefCount;
      this.schedule := schedule;
      entries := new nat[SIZE](_ => 0);
      bottom, top, owner, low, high := Byte(0), Byte(0), Resting, 0, 0;
      thieves := seq(thiefCount, _ => Away);
      trace, steps := [Init(thiefCount)], [];
      new;
      assert entries[..] == Init(thiefCount).entries;
      assert thieves == Init(thiefCount).thieves;
    }

    /** One more step of the history. */
    ghost method Record(v: State, a: Step)
      requires entries.Length == SIZE && |thieves| == thiefCount
      requires |trace| == |steps| + 1 && IsRun(thiefCount, trace, steps) && trace[|steps|] == v
      requires Enabled(v, a) && |v.entries| == SIZE && View() == Do(v, a)
      modifies this`trace, this`steps
      ensures Valid() && steps == old(steps) + [a] && trace == old(trace) + [View()]
    {
      hide Enabled, Do, Init;
      var v' := View();
      forall i | 0 <= i < |steps + [a]| ensures Took((trace + [v'])[i], (steps + [a])[i], (trace + [v'])[i + 1]) {
        if i < |steps| { assert Took(trace[i], steps[i], trace[i + 1]); }
      }
      trace := trace + [v'];
      steps := steps + [a];
    }

    /** One more access of the thread itself. */
    ghost method Perform(who: Who, v: State, a: Step, from: nat, own: seq<Act>, all: seq<Act>)
      requires entries.Length == SIZE && |thieves| == thiefCount
      requires |trace| == |steps| + 1 && IsRun(thiefCount, trace, steps) && trace[|steps|] == v
      requires Enabled(v, a) && |v.entries| == SIZE && View() == Do(v, a)
      requires Mine(who, a) && Did(who, trace, steps, from, own) && all == own + [Act(a, EventOf(v, a))]
      modifies this`trace, this`steps
      ensures Valid() && steps == old(steps) + [a] && trace == old(trace) + [View()]
      ensures Did(who, trace, steps, from, all)
    {
      hide Enabled, Do, Init, IsRun, Did, EventOf;
      DidMore(who, trace, steps, from, own, View(), a);
      Record(v, a);
    }

    /** Another thread takes step a. */
    method Rival(who: Who, a: Step)
      requires Valid() && Enabled(View(), a) && !Mine(who, a) && (who.TheThief? ==> who.i < |thieves|)
      modifies this, entries
      ensures Valid() && GoesOn(old(trace), old(steps)) && Keeps(who, old(View()), View())
      ensures Did(who, trace, steps, |old(steps)|, [])
    {
      hide Enabled, Do, Init, IsRun, Keeps, Did, EventAt;
      ghost var v := View();
      DidNothing(who, trace, steps);
      DidMore(who, trace, steps, |steps|, [], Do(v, a), a);
      RivalKeeps(who, v, a);
      var v' := Do(View(), a);
      bottom, top, owner, thieves, low, high := v'.bottom, v'.top, v'.owner, v'.thieves, v'.low, v'.high;
      for k := 0 to SIZE
        invariant entries[..k] == v'.entries[..k] && View() == v'.(entries := entries[..])
        invariant trace == old(trace) && steps == old(steps)
      {
        entries[k] := v'.entries[k];
      }
      assert entries[..] == entries[..SIZE] && v'.entries == v'.entries[..SIZE];
      Record(v, a);
    }

    /** The other threads take the steps of the next burst that they can take. */
    method Others(who: Who)
      requires Valid() && (who.TheThief? ==> who.i < |thieves|)
      modifies this, entries
      ensures Valid() && GoesOn(old(trace), old(steps)) && Keeps(who, old(View()), View())
      ensures Did(who, trace, steps, |old(steps)|, [])
    {
      hide Enabled, Do, Init, IsRun, Did;
      DidNothing(who, trace, steps);
      if schedule != [] {
        var burst := schedule[0];
        schedule := schedule[1..];
        for k := 0 to |burst|
          invariant Valid() && GoesOn(old(trace), old(steps)) && Keeps(who, old(View()), View())
          invariant Did(who, trace, steps, |old(steps)|, [])
        {
          if Enabled(View(), burst[k]) && !Mine(who, burst[k]) {
            ghost var tr, st := trace, steps;
            Rival(who, burst[k]);
            DidThen(who, tr, st, trace, steps, |old(steps)|, [], [], []);
          }
        }
      }
    }

    /** `(b ^ t) == size`, with the read of `top`. */
    method TestFull(x: nat) returns (full: bool)
      requires Valid() && owner == Resting
      modifies this, entries
      ensures Valid() && GoesOn(old(trace), old(steps)) && owner == if full then Resting else Writing(x)
      ensures full && AllFair(trace, steps) ==> FullAt(trace, |old(steps)|)
      ensures Did(TheOwner, trace, steps, |old(steps)|, EnqueueActs(x, false))
    {
      hide Do, Init, IsRun, Did, Byte, Next, Slot, AllFair, FullAt, LooksFull;
      Others(TheOwner);
      ghost var v := View();
      owner := Adding(x);
      OwnerIs(v, Step.Enqueue(x));
      Perform(TheOwner, v, Step.Enqueue(x), |old(steps)|, [], [Act(Step.Enqueue(x), Quiet)]);
      ghost var tr, st := trace, steps;
      Others(TheOwner);
      DidThen(TheOwner, tr, st, trace, steps, |old(steps)|, [Act(Step.Enqueue(x), Quiet)], [], [Act(Step.Enqueue(x), Quiet)]);
      v := View();
      OwnerIs(v, Check);
      full := LooksFull(bottom, top);
      owner := if full then Resting else Writing(x);
      Perform(TheOwner, v, Check, |old(steps)|, [Act(Step.Enqueue(x), Quiet)], EnqueueActs(x, false));
      if full && AllFair(trace, steps) { Refused(trace, steps, |old(steps)|, |steps| - 1); }
    }

    method WriteEntry(x: nat)
      requires Valid() && owner == Writing(x)
      modifies this, entries
      ensures Valid() && owner == Storing(x) && GoesOn(old(trace), old(steps))
      ensures Did(TheOwner, trace, steps, |old(steps)|, [Act(Write, Quiet)])
    {
      hide Do, Init, IsRun, Did, Byte, Next, Slot;
      Others(TheOwner);
      ghost var v := View();
      OwnerIs(v, Write);
      entries[Slot(bottom)] := x;
      owner := Storing(x);
      assert entries[..] == v.entries[Slot(bottom) := x];
      Perform(TheOwner, v, Write, |old(steps)|, [], [Act(Write, Quiet)]);
    }

    /** The write of the entry and the advance of `bottom`. */
    method StoreTask(x: nat)
      requires Valid() && owner == Writing(x)
      modifies this, entries
      ensures Valid() && owner == Resting && GoesOn(old(trace), old(steps))
      ensures Happened(trace, steps, |old(steps)|, Append(x))
      ensures Did(TheOwner, trace, steps, |old(steps)|, [Act(Write, Quiet), Act(Store, Append(x))])
    {
      hide Do, Init, IsRun, Did, Byte, Next, Slot, Happened;
      WriteEntry(x);
      ghost var tr, st := trace, steps;
      Others(TheOwner);
      DidThen(TheOwner, tr, st, trace, steps, |old(steps)|, [Act(Write, Quiet)], [], [Act(Write, Quiet)]);
      ghost var v := View();
      OwnerIs(v, Store);
      bottom, high, owner := Next(bottom), high + 1, Resting;
      Perform(TheOwner, v, Store, |old(steps)|, [Act(Write, Quiet)], [Act(Write, Quiet), Act(Store, Append(x))]);
      HappensNow(trace, steps, |old(steps)|, |steps| - 1, Append(x));
    }

    /** False when the queue is full; otherwise the task is stored at the owner's end. */
    method Enqueue(x: nat) returns (ok: bool)
      requires Valid() && owner == Resting
      modifies this, entries
      ensures Valid() && owner == Resting && GoesOn(old(trace), old(steps))
      ensures ok ==> Happened(trace, steps, |old(steps)|, Append(x))
      ensures !ok && AllFair(trace, steps) ==> FullAt(trace, |old(steps)|)
      ensures Did(TheOwner, trace, steps, |old(steps)|, EnqueueActs(x, ok))
    {
      hide Valid, IsRun, Did, AllFair, FullAt, Happened;
      var full := TestFull(x);
      if full { return false; }
      label stored:
      StoreTask(x);
      HappenedEarlier(trace, steps, |old(steps)|, |old@stored(steps)|, Append(x));
      DidThen(TheOwner, old@stored(trace), old@stored(steps), trace, steps, |old(steps)|,
              EnqueueActs(x, false), [Act(Write, Quiet), Act(Store, Append(x))], EnqueueActs(x, true));
      ok := true;
    }

    lemma Refused(tr: seq<State>, st: seq<Step>, from: nat, m: nat)
      requires IsRun(thiefCount, tr, st) && AllFair(tr, st) && from <= m < |st| && m < |tr|
      requires tr[m].owner.Adding? && LooksFull(tr[m].bottom, tr[m].top)
      ensures FullAt(tr, from)
    {
      RunInv(thiefCount, tr, st, m);
      FullTest(tr[m]);
      hide IsRun, AllFair, LooksFull, Content;
    }

    lemma OwnerIs(s: State, a: Step)
      requires Enabled(s, a) && |s.entries| == SIZE && !ByThief(a)
      ensures Do(s, a) == OwnerDo(s, a)
    {
      hide OwnerDo;
    }

    // ---- dequeue_front ------------------------------------------------------

    method ReserveBottom()
      requires Valid() && owner == Resting
      modifies this, entries
      ensures Valid() && GoesOn(old(trace), old(steps)) && owner == Reserved
      ensures Did(TheOwner, trace, steps, |old(steps)|, [Act(Dequeue, Quiet)])
    {
      hide Do, Init, IsRun, Did, Byte, Next, Prev, Slot;
      Others(TheOwner);
      ghost var v := View();
      OwnerIs(v, Dequeue);
      bottom, high, owner := Prev(bottom), high - 1, Reserved;
      Perform(TheOwner, v, Dequeue, |old(steps)|, [], [Act(Dequeue, Quiet)]);
    }

    /** The decrement of `bottom`, the read of `top` and the comparisons. */
    method LookAtBottom() returns (t: bv8)
      requires Valid() && owner == Resting
      modifies this, entries
      ensures Valid() && GoesOn(old(trace), old(steps))
      ensures owner == Restoring(t) || owner.Popped? || (owner.Racing? && owner.t == t)
      ensures owner.Popped? ==> owner.r.Some? && Happened(trace, steps, |old(steps)|, TakeLast(owner.r.value))
      ensures Did(TheOwner, trace, steps, |old(steps)|, [Act(Dequeue, Quiet), Act(Look, if owner.Popped? then TakeEvent(owner.r) else Quiet)])
    {
      hide Do, Init, IsRun, Did, Byte, Next, Prev, Slot, Happened;
      ReserveBottom();
      ghost var tr, st := trace, steps;
      Others(TheOwner);
      DidThen(TheOwner, tr, st, trace, steps, |old(steps)|, [Act(Dequeue, Quiet)], [], [Act(Dequeue, Quiet)]);
      ghost var v := View();
      OwnerIs(v, Look);
      var b := bottom;
      t := top;
      if Next(b) == t {
        owner := Restoring(t);
      } else {
        var retVal := entries[Slot(b)];
        owner := if b != t then Popped(Some(retVal)) else Racing(retVal, t);
      }
      Perform(TheOwner, v, Look, |old(steps)|, [Act(Dequeue, Quiet)], [Act(Dequeue, Quiet), Act(Look, if owner.Popped? then TakeEvent(owner.r) else Quiet)]);
      if owner.Popped? { HappensNow(trace, steps, |old(steps)|, |steps| - 1, TakeLast(owner.r.value)); }
    }

    /** The queue was empty: bottom goes back to t. */
    method RestoreBottom(t: bv8)
      requires Valid() && owner == Restoring(t)
      modifies this, entries
      ensures Valid() && GoesOn(old(trace), old(steps)) && owner == Popped(None)
      ensures Did(TheOwner, trace, steps, |old(steps)|, [Act(Restore, Quiet)])
    {
      hide Do, Init, IsRun, Did, Byte, Next, Prev, Slot;
      Others(TheOwner);
      ghost var v := View();
      OwnerIs(v, Restore);
      bottom, high, owner := t, high + 1, Popped(None);
      Perform(TheOwner, v, Restore, |old(steps)|, [], [Act(Restore, Quiet)]);
    }

    /** The compare-and-swap on `top`. */
    method RaceTop(t: bv8) returns (retVal: Option<nat>)
      requires Valid() && owner.Racing? && owner.t == t
      modifies this, entries
      ensures Valid() && GoesOn(old(trace), old(steps)) && owner == Closing(retVal, t)
      ensures retVal.Some? ==> Happened(trace, steps, |old(steps)|, TakeLast(retVal.value))
      ensures Did(TheOwner, trace, steps, |old(steps)|, [Act(Race, TakeEvent(retVal))])
    {
      hide Do, Init, IsRun, Did, Byte, Next, Prev, Slot, Happened;
      Others(TheOwner);
      ghost var v := View();
      OwnerIs(v, Race);
      retVal := Some(owner.v);
      if top == t {
        top, low := Next(t), low + 1;
      } else {
        retVal := None;
      }
      owner := Closing(retVal, t);
      Perform(TheOwner, v, Race, |old(steps)|, [], [Act(Race, TakeEvent(retVal))]);
      if retVal.Some? { HappensNow(trace, steps, |old(steps)|, |steps| - 1, TakeLast(retVal.value)); }
    }

    /** The race for the last element, then bottom past it. */
    method RaceForLast(t: bv8)
      requires Valid() && owner.Racing? && owner.t == t
      modifies this, entries
      ensures Valid() && GoesOn(old(trace), old(steps)) && owner.Popped?
      ensures owner.r.Some? ==> Happened(trace, steps, |old(steps)|, TakeLast(owner.r.value))
      ensures Did(TheOwner, trace, steps, |old(steps)|, [Act(Race, TakeEvent(owner.r)), Act(Close, Quiet)])
    {
      hide Do, Init, IsRun, Did, Byte, Next, Prev, Slot, Happened;
      var retVal := RaceTop(t);
      label raced:
      CloseRace(t, retVal);
      DidThen(TheOwner, old@raced(trace), old@raced(steps), trace, steps, |old(steps)|,
              [Act(Race, TakeEvent(retVal))], [Act(Close, Quiet)], [Act(Race, TakeEvent(retVal)), Act(Close, Quiet)]);
      if retVal.Some? {
        HappenedStays(old@raced(trace), trace, old@raced(steps), steps, |old(steps)|, TakeLast(retVal.value));
      }
    }

    method CloseRace(t: bv8, r: Option<nat>)
      requires Valid() && owner == Closing(r, t)
      modifies this, entries
      ensures Valid() && GoesOn(old(trace), old(steps)) && owner == Popped(r)
      ensures Did(TheOwner, trace, steps, |old(steps)|, [Act(Close, Quiet)])
    {
      hide Do, Init, IsRun, Did, Byte, Next, Prev, Slot;
      Others(TheOwner);
      ghost var v := View();
      OwnerIs(v, Close);
      bottom, high, owner := Next(t), high + 1, Popped(r);
      Perform(TheOwner, v, Close, |old(steps)|, [], [Act(Close, Quiet)]);
    }

    method FrontReturn() returns (r: Option<nat>)
      requires Valid() && owner.Popped?
      modifies this, entries
      ensures Valid() && GoesOn(old(trace), old(steps)) && owner == Resting && r == old(owner.r)
      ensures r == None && AllFair(trace, steps) ==> Held(View()) == 0
      ensures Did(TheOwner, trace, steps, |old(steps)|, [Act(Return, Quiet)])
    {
      hide Do, Init, IsRun, Did, Byte, Next, Prev, Slot, AllFair;
      Others(TheOwner);
      ghost var v := View();
      OwnerIs(v, Return);
      r := owner.r;
      owner := Resting;
      Perform(TheOwner, v, Return, |old(steps)|, [], [Act(Return, Quiet)]);
      if AllFair(trace, steps) { NothingHeld(trace, steps, |steps| - 1); }
    }

    lemma NothingHeld(tr: seq<State>, st: seq<Step>, m: nat)
      requires IsRun(thiefCount, tr, st) && AllFair(tr, st) && m < |tr| && tr[m].owner.Popped?
      ensures tr[m].owner.r == None ==> tr[m].high == tr[m].low
    {
      RunInv(thiefCount, tr, st, m);
      hide IsRun, AllFair;
    }

    /** The latest task, or NULL; and NULL means that nothing is left.  The owner has taken
        that task in its last look or in the race, and nothing else. */
    method DequeueFront() returns (r: Option<nat>, ghost own: seq<Act>)
      requires Valid() && owner == Resting
      modifies this, entries
      ensures Valid() && GoesOn(old(trace), old(steps)) && owner == Resting
      ensures r.Some? ==> Happened(trace, steps, |old(steps)|, TakeLast(r.value))
      ensures r == None && AllFair(trace, steps) ==> Held(View()) == 0
      ensures Did(TheOwner, trace, steps, |old(steps)|, own) && FrontActs(own, r)
    {
      hide Valid, IsRun, Did, AllFair, Happened, Held;
      var t := LookAtBottom();
      own := [Act(Dequeue, Quiet), Act(Look, if owner.Popped? then TakeEvent(owner.r) else Quiet)];
      label looked:
      if owner.Restoring? {
        RestoreBottom(t);
        DidThen(TheOwner, old@looked(trace), old@looked(steps), trace, steps, |old(steps)|, own, [Act(Restore, Quiet)], own + [Act(Restore, Quiet)]);
        own := own + [Act(Restore, Quiet)];
      } else if owner.Racing? {
        RaceForLast(t);
        ghost var o := [Act(Race, TakeEvent(owner.r)), Act(Close, Quiet)];
        DidThen(TheOwner, old@looked(trace), old@looked(steps), trace, steps, |old(steps)|, own, o, own + o);
        own := own + o;
        if owner.r.Some? { HappenedEarlier(trace, steps, |old(steps)|, |old@looked(steps)|, TakeLast(owner.r.value)); }
      }
      label popped:
      r := FrontReturn();
      DidThen(TheOwner, old@popped(trace), old@popped(steps), trace, steps, |old(steps)|, own, [Act(Return, Quiet)], own + [Act(Return, Quiet)]);
      own := own + [Act(Return, Quiet)];
      if r.Some? { HappenedStays(old@popped(trace), trace, old@popped(steps), steps, |old(steps)|, TakeLast(r.value)); }
    }

    // ---- dequeue_back -------------------------------------------------------

    lemma ThiefIs(s: State, a: Step)
      requires Enabled(s, a) && |s.entries| == SIZE && ByThief(a)
      ensures Do(s, a) == ThiefDo(s, a)
    {
      hide ThiefDo;
    }

    /** The reads of `top` and `bottom` and the empty test. */
    method LookAtTop(i: nat) returns (t: bv8, empty: bool)
      requires Valid() && i < |thieves| && thieves[i] == Away
      modifies this, entries
      ensures Valid() && GoesOn(old(trace), old(steps)) && i < |thieves|
      ensures if empty then thieves[i] == Stolen(None) else thieves[i].SawBoth? && thieves[i].t == t && thieves[i].at >= old(low)
      ensures Did(TheThief(i), trace, steps, |old(steps)|, [Act(ReadTop(i), Quiet), Act(ReadBottom(i), Quiet)])
      ensures empty ==> SawEmpty(trace, steps, |old(steps)|, i)
    {
      hide Do, Init, IsRun, Did, Byte, Next, Prev, Slot, LooksEmpty;
      Others(TheThief(i));
      ghost var v := View();
      ThiefIs(v, ReadTop(i));
      t := top;
      thieves := thieves[i := SawTop(t, low)];
      Perform(TheThief(i), v, ReadTop(i), |old(steps)|, [], [Act(ReadTop(i), Quiet)]);
      ghost var tr, st := trace, steps;
      Others(TheThief(i));
      DidThen(TheThief(i), tr, st, trace, steps, |old(steps)|, [Act(ReadTop(i), Quiet)], [], [Act(ReadTop(i), Quiet)]);
      v := View();
      ThiefIs(v, ReadBottom(i));
      empty := LooksEmpty(bottom, t);
      thieves := thieves[i := if empty then Stolen(None) else SawBoth(t, thieves[i].at)];
      Perform(TheThief(i), v, ReadBottom(i), |old(steps)|, [Act(ReadTop(i), Quiet)], [Act(ReadTop(i), Quiet), Act(ReadBottom(i), Quiet)]);
      if empty { assert steps[|st| - 1] == ReadTop(i) && trace[|st| - 1].top == t && trace[|steps| - 1] == v; }
    }

    method ReadFirst(i: nat, t: bv8) returns (v: nat)
      requires Valid() && i < |thieves| && thieves[i].SawBoth? && thieves[i].t == t
      modifies this, entries
      ensures Valid() && GoesOn(old(trace), old(steps)) && i < |thieves|
      ensures thieves[i] == SawEntry(t, old(thieves[i].at), v)
      ensures Did(TheThief(i), trace, steps, |old(steps)|, [Act(ReadEntry(i), Quiet)])
    {
      hide Do, Init, IsRun, Did, Byte, Next, Prev, Slot;
      Others(TheThief(i));
      ghost var s := View();
      ThiefIs(s, ReadEntry(i));
      v := entries[Slot(t)];
      thieves := thieves[i := SawEntry(t, thieves[i].at, v)];
      Perform(TheThief(i), s, ReadEntry(i), |old(steps)|, [], [Act(ReadEntry(i), Quiet)]);
    }

    method TrySwap(i: nat, t: bv8, v: nat) returns (won: bool)
      requires Valid() && i < |thieves| && thieves[i].SawEntry? && thieves[i].t == t && thieves[i].v == v
      modifies this, entries
      ensures Valid() && GoesOn(old(trace), old(steps)) && i < |thieves|
      ensures thieves[i] == Stolen(if won then Some(v) else None)
      ensures won ==> Happened(trace, steps, |old(steps)|, TakeFirst(v))
      ensures !won && AllFair(trace, steps) ==> old(thieves[i].at) < low
      ensures Did(TheThief(i), trace, steps, |old(steps)|, [Act(Swap(i), if won then TakeFirst(v) else Quiet)])
    {
      hide Do, Init, IsRun, Did, Byte, Next, Prev, Slot, AllFair, Happened;
      Others(TheThief(i));
      ghost var s := View();
      ThiefIs(s, Swap(i));
      won := top == t;
      if won { top, low := Next(t), low + 1; }
      thieves := thieves[i := Stolen(if won then Some(v) else None)];
      Perform(TheThief(i), s, Swap(i), |old(steps)|, [], [Act(Swap(i), if won then TakeFirst(v) else Quiet)]);
      if won { HappensNow(trace, steps, |old(steps)|, |steps| - 1, TakeFirst(v)); }
      else if AllFair(trace, steps) { Overtaken(trace, steps, |steps| - 1, i); }
    }

    lemma Overtaken(tr: seq<State>, st: seq<Step>, m: nat, i: nat)
      requires IsRun(thiefCount, tr, st) && AllFair(tr, st) && m < |st| && m < |tr| && st[m] == Swap(i)
      requires Enabled(tr[m], Swap(i)) && tr[m].top != tr[m].thieves[i].t
      ensures tr[m].low > tr[m].thieves[i].at
    {
      hide *;
      RunInv(thiefCount, tr, st, m);
      Passed(tr[m], i);
    }

    lemma Passed(s: State, i: nat)
      requires Inv(s) && Enabled(s, Swap(i)) && s.top != s.thieves[i].t
      ensures s.low > s.thieves[i].at
    {
      assert ThiefOk(s, s.thieves[i]);
      hide Byte, Next, Prev, Slot, OwnerOk;
    }

    /** 1 with the oldest task, 0 when the queue looked empty, or -1 when contended; and
        then another thread has taken a task since the call began.  The thief swaps exactly
        when the result is not 0, and takes a task exactly when it is 1. */
    method DequeueBack(i: nat) returns (code: int, retVal: Option<nat>)
      requires Valid() && i < |thieves| && thieves[i] == Away
      modifies this, entries
      ensures Valid() && GoesOn(old(trace), old(steps)) && i < |thieves| && thieves[i] == Away
      ensures code in {-1, 0, 1} && (code == 1 <==> retVal.Some?)
      ensures code == 1 ==> Happened(trace, steps, |old(steps)|, TakeFirst(retVal.value))
      ensures code == -1 && AllFair(trace, steps) ==> old(low) < low
      ensures Did(TheThief(i), trace, steps, |old(steps)|, BackActs(i, code, retVal))
      ensures code == 0 ==> SawEmpty(trace, steps, |old(steps)|, i)
    {
      hide IsRun, Did, SawEmpty, AllFair, Happened, Init;
      var t, empty := LookAtTop(i);
      code, retVal := 0, None;
      ghost var own := [Act(ReadTop(i), Quiet), Act(ReadBottom(i), Quiet)];
      label looked:
      if !empty {
        var v := ReadFirst(i, t);
        DidThen(TheThief(i), old@looked(trace), old@looked(steps), trace, steps, |old(steps)|, own, [Act(ReadEntry(i), Quiet)], own + [Act(ReadEntry(i), Quiet)]);
        own := own + [Act(ReadEntry(i), Quiet)];
        label read:
        var won := TrySwap(i, t, v);
        code, retVal := if won then 1 else -1, if won then Some(v) else None;
        ghost var o := [Act(Swap(i), if won then TakeFirst(v) else Quiet)];
        DidThen(TheThief(i), old@read(trace), old@read(steps), trace, steps, |old(steps)|, own, o, own + o);
        own := own + o;
        if won { HappenedEarlier(trace, steps, |old(steps)|, |old@read(steps)|, TakeFirst(v)); }
      }
      label taken:
      BackReturn(i);
      DidThen(TheThief(i), old@taken(trace), old@taken(steps), trace, steps, |old(steps)|, own, [Act(Leave(i), Quiet)], BackActs(i, code, retVal));
      if code == 0 { SawEmptyStays(old@taken(trace), old@taken(steps), trace, steps, |old(steps)|, i); }
      if retVal.Some? { HappenedStays(old@taken(trace), trace, old@taken(steps), steps, |old(steps)|, TakeFirst(retVal.value)); }
      if AllFair(trace, steps) { FairPrefix(old@taken(trace), trace, old@taken(steps), steps); }
    }

    lemma FairPrefix(tr: seq<State>, tr': seq<State>, st: seq<Step>, st': seq<Step>)
      requires AllFair(tr', st') && tr <= tr' && st <= st'
      ensures AllFair(tr, st)
    {
      hide Enabled, Fair;
      forall m | 0 <= m < |st| && m < |tr| && Enabled(tr[m], st[m]) ensures Fair(tr[m], st[m]) {
        assert tr'[m] == tr[m] && st'[m] == st[m];
      }
    }

    method BackReturn(i: nat)
      requires Valid() && i < |thieves| && thieves[i].Stolen?
      modifies this, entries
      ensures Valid() && GoesOn(old(trace), old(steps)) && i < |thieves| && thieves[i] == Away && old(low) <= low
      ensures Did(TheThief(i), trace, steps, |old(steps)|, [Act(Leave(i), Quiet)])
    {
      hide Do, Init, IsRun, Did, Byte, Next, Prev, Slot;
      Others(TheThief(i));
      ghost var v := View();
      ThiefIs(v, Leave(i));
      thieves := thieves[i := Away];
      Perform(TheThief(i), v, Leave(i), |old(steps)|, [], [Act(Leave(i), Quiet)]);
    }
  }

  /** At some moment from step `from` on, 128 tasks were held. */
  ghost predicate FullAt(tr: seq<State>, from: nat) {
    exists m :: from <= m < |tr| && |tr[m].entries| == SIZE && Held(tr[m]) >= 0 && |Content(tr[m])| == SIZE
  }
}