/** Every run over the deques of src/queue.c can be completed: whatever is under way, in
    the calls on the deques, the pushes and the locks too, can be brought to its end
    without further calls, and then every body has run exactly once. */
module DepSettle {
  import opened Sums
  import opened DepMachine
  import opened DepCount
  import opened DepOrder
  import opened DepProgress
  import opened DepDeques
  import opened DepWhole
  import Bytes
  import Q = Deque
  import R = DequeRuns

  // ---- going on ------------------------------------------------------------------------

  /** A fair act that is not a new call of tpc_call. */
  ghost predicate GoesOn(c: Full, act: Act) {
    CanAct(c, act) && FairAct(c, act) && !(act.Core? && act.a.Spawn?)
  }

  ghost predicate Carries(c: Full, cs: seq<Full>, acts: seq<Act>) {
    && |cs| == |acts| + 1 && cs[0] == c
    && forall i :: 0 <= i < |acts| ==> GoesOn(cs[i], acts[i]) && cs[i + 1] == DoAct(cs[i], acts[i])
  }

  ghost predicate Leads(c: Full, c': Full) {
    exists cs, acts :: Carries(c, cs, acts) && |cs| == |acts| + 1 && cs[|acts|] == c'
  }

  lemma LeadsHere(c: Full)
    ensures Leads(c, c)
  {
    var acts: seq<Act> := [];
    assert Carries(c, [c], acts) && [c][|acts|] == c;
  }

  lemma LeadsFrom(c: Full, act: Act, c': Full)
    requires GoesOn(c, act) && Leads(DoAct(c, act), c')
    ensures Leads(c, c')
  {
    hide CanAct, FairAct, DoAct;
    var cs, acts :| Carries(DoAct(c, act), cs, acts) && |cs| == |acts| + 1 && cs[|acts|] == c';
    var cs1, acts1 := [c] + cs, [act] + acts;
    forall i | 0 <= i < |acts1| ensures GoesOn(cs1[i], acts1[i]) && cs1[i + 1] == DoAct(cs1[i], acts1[i]) {
      if i > 0 { assert GoesOn(cs[i - 1], acts[i - 1]) && cs[i] == DoAct(cs[i - 1], acts[i - 1]); }
    }
    assert Carries(c, cs1, acts1) && cs1[|acts1|] == c';
  }

  /** c' is c one step of DepMachine further. */
  ghost predicate Nearer(c: Full, c': Full) {
    && Good(c) && Good(c') && |c'.qs| == |c.qs| && |c'.core.tasks| == |c.core.tasks|
    && Less(Abs(c'), Abs(c))
  }

  /** c' stands for the same state as c. */
  ghost predicate Level(c: Full, c': Full) {
    && Good(c) && Good(c') && |c'.qs| == |c.qs| && |c'.core.tasks| == |c.core.tasks|
    && Abs(c') == Abs(c)
  }

  lemma ActQs(c: Full, act: Act)
    requires CanAct(c, act)
    ensures |DoAct(c, act).qs| == |c.qs|
  {
    hide Q.Do, Given, Q.LooksFull, WF, Do, OpEnds, SeenAfter;
  }

  lemma GoesOnIs(c: Full, act: Act)
    requires GoesOn(c, act)
    ensures CanAct(c, act) && FairAct(c, act) && !(act.Core? && act.a.Spawn?)
  {
    hide CanAct, FairAct;
  }

  /** Acts that are steps come nearer, and the others leave everything as it is. */
  lemma Advance(c: Full, act: Act)
    requires Good(c) && GoesOn(c, act)
    ensures CanAct(c, act)
    ensures if AbsStep(c, act).Some? then Nearer(c, DoAct(c, act)) else Level(c, DoAct(c, act))
  {
    hide *;
    GoesOnIs(c, act);
    var c' := DoAct(c, act);
    StepSimulates(c, act);
    SimulatesIs(c, act);
    NotableIs(c, act);
    ActQs(c, act);
    AbsLength(c);
    AbsLength(c');
    match AbsStep(c, act) {
      case None => LevelIs(c, c');
      case Some(a) =>
        NextIs(Abs(c), a, Abs(c'));
        StepLess(Abs(c), a);
        SameCount(Abs(c), a);
        NearerIs(c, c');
    }
  }

  lemma NextIs(s: State, a: Step, s': State)
    requires Next(s, a, s')
    ensures WF(s) && Enabled(s, a) && s' == Do(s, a)
  {
    hide WF, Enabled, Do;
  }

  lemma LevelIs(c: Full, c': Full)
    requires Good(c) && Good(c') && |c'.qs| == |c.qs| && |c'.core.tasks| == |c.core.tasks| && Abs(c') == Abs(c)
    ensures Level(c, c')
  {
  }

  lemma NearerIs(c: Full, c': Full)
    requires Good(c) && Good(c') && |c'.qs| == |c.qs| && |c'.core.tasks| == |c.core.tasks| && Less(Abs(c'), Abs(c))
    ensures Nearer(c, c')
  {
  }

  // ---- finishing the calls on the deques -------------------------------------------------

  /** What the owner does next inside its call. */
  function OwnerStep(o: Q.Owner): Q.Step {
    match o
    case Resting => Q.Dequeue
    case Adding(_) => Q.Check
    case Writing(_) => Q.Write
    case Storing(_) => Q.Store
    case Reserved => Q.Look
    case Restoring(_) => Q.Restore
    case Racing(_, _) => Q.Race
    case Closing(_, _) => Q.Close
    case Popped(_) => Q.Return
  }

  function OwnerLeft(o: Q.Owner): nat {
    match o
    case Resting => 0
    case Adding(_) => 3
    case Writing(_) => 2
    case Storing(_) => 1
    case Reserved => 4
    case Restoring(_) => 2
    case Racing(_, _) => 3
    case Closing(_, _) => 2
    case Popped(_) => 1
  }

  function Returning(hs: seq<Q.Thief>, n: nat): nat
    requires n <= |hs|
  {
    if n == 0 then 0 else Returning(hs, n - 1) + (if hs[n - 1].Stolen? then 1 else 0)
  }

  function Left(q: Q.State): nat { OwnerLeft(q.owner) + Returning(q.thieves, |q.thieves|) }

  function Lefts(qs: seq<Q.State>): (v: seq<nat>)
    ensures |v| == |qs|
  {
    seq(|qs|, d requires 0 <= d < |qs| => Left(qs[d]))
  }

  /** The accesses that the calls under way still need, thieves that have not swapped
      apart. */
  function CallWork(qs: seq<Q.State>): nat { Sum(Lefts(qs)) }

  lemma CallWorkUpdate(qs: seq<Q.State>, d: nat, q: Q.State)
    requires d < |qs| && Left(q) < Left(qs[d])
    ensures CallWork(qs[d := q]) < CallWork(qs)
  {
    hide Left, Sum;
    assert Lefts(qs[d := q]) == Lefts(qs)[d := Left(q)];
    SumUpdate(Lefts(qs), d, Left(q));
  }

  lemma {:induction false} ReturningLess(hs: seq<Q.Thief>, n: nat, i: nat)
    requires n <= |hs| && i < |hs| && hs[i].Stolen?
    ensures Returning(hs[i := Q.Away], n) == Returning(hs, n) - (if i < n then 1 else 0)
  {
    if n > 0 { ReturningLess(hs, n - 1, i); }
  }

  lemma {:induction false} NoneReturning(hs: seq<Q.Thief>, n: nat)
    requires n <= |hs| && Returning(hs, n) == 0
    ensures forall i :: 0 <= i < n ==> !hs[i].Stolen?
  {
    if n > 0 { NoneReturning(hs, n - 1); }
  }

  lemma NextCall(q: Q.State) returns (b: Q.Step)
    requires |q.entries| == Q.SIZE && !AtRest(q)
    ensures Q.Enabled(q, b) && !b.Enqueue? && !b.Swap? && (b.Check? || b.Store? ==> InEnqueue(q))
    ensures Left(Q.Do(q, b)) < Left(q)
  {
    hide Bytes.Slot, Bytes.Next, Bytes.Prev, Q.LooksFull;
    if q.owner != Q.Resting {
      b := OwnerStep(q.owner);
    } else {
      var i :| 0 <= i < |q.thieves| && q.thieves[i].Stolen?;
      b := Q.Leave(i);
      ReturningLess(q.thieves, |q.thieves|, i);
    }
  }

  /** Accesses of the owner, and of thieves on their way out, are always fair. */
  lemma OnGoes(c: Full, d: nat, b: Q.Step)
    requires Good(c) && d < |c.qs| && Q.Enabled(c.qs[d], b) && !b.Enqueue? && !b.Swap? && (b.Check? || b.Store? ==> InEnqueue(c.qs[d]))
    ensures GoesOn(c, On(d, b)) && |c.qs[d].entries| == Q.SIZE
    ensures DoAct(c, On(d, b)).qs == c.qs[d := Q.Do(c.qs[d], b)]
  {
    assert Q.Inv(c.qs[d]);
    hide WF, CountInv, Q.Enabled, Q.Do, Given, Q.LooksFull, R.Contents;
  }

  lemma GoodEntries(c: Full, d: nat)
    requires Good(c) && d < |c.qs|
    ensures |c.qs[d].entries| == Q.SIZE
  {
    hide WF, CountInv;
    assert Q.Inv(c.qs[d]);
  }

  /** While a call is under way, an access comes nearer to its end. */
  lemma Busy(c: Full, d: nat) returns (act: Act)
    requires Good(c) && d < |c.qs| && !AtRest(c.qs[d])
    ensures GoesOn(c, act) && CanAct(c, act) && CallWork(DoAct(c, act).qs) < CallWork(c.qs)
  {
    hide *;
    GoodEntries(c, d);
    var b := NextCall(c.qs[d]);
    act := On(d, b);
    OnGoes(c, d, b);
    GoesOnIs(c, act);
    CallWorkUpdate(c.qs, d, Q.Do(c.qs[d], b));
  }

  // ---- whole calls -------------------------------------------------------------------------

  /** The owner's call is going to put a task on the deque, or to take one. */
  predicate Committed(q: Q.State) {
    InEnqueue(q) || ((q.owner.Reserved? || q.owner.Racing?) && Q.Held(q) > 0)
  }

  /** Its next access does so, or leaves it committed. */
  lemma CommittedGoes(q: Q.State)
    requires Q.Inv(q) && Committed(q)
    ensures var b := OwnerStep(q.owner);
      && Q.Enabled(q, b) && !b.Enqueue? && !b.Swap? && (b.Check? || b.Store? ==> InEnqueue(q)) && |q.entries| == Q.SIZE
      && (Inside(q, b) && !Q.EventOf(q, b).TakeLast? ==>
            Committed(Q.Do(q, b)) && OwnerLeft(Q.Do(q, b).owner) < OwnerLeft(q.owner))
  {
    if q.owner.Reserved? { Q.LookTest(q); }
    if q.owner.Racing? { Bytes.SameByte(q.low, q.high); }
    hide Bytes.Byte, Bytes.Slot, Bytes.Next, Bytes.Prev, Q.LooksFull;
  }

  lemma EventIsStep(c: Full, d: nat, b: Q.Step)
    requires Good(c) && GoesOn(c, On(d, b)) && d < |c.qs| && Q.Enabled(c.qs[d], b) && |c.qs[d].entries| == Q.SIZE
    requires AbsStep(c, On(d, b)) == None
    ensures Inside(c.qs[d], b) && !Q.EventOf(c.qs[d], b).TakeLast?
  {
    assert OnOk(c, d, b);
    OnStepIs(c, d, b);
    OnParts(c, d, b);
    hide Good, Q.Enabled, Q.EventOf, R.Fair, AbsStep, WF;
  }

  lemma GoodInv(c: Full, d: nat)
    requires Good(c) && d < |c.qs|
    ensures Q.Inv(c.qs[d])
  {
    hide WF, CountInv, Q.Inv;
  }

  /** So a committed call ends in a step. */
  lemma {:induction false} Drive(c: Full, d: nat) returns (c': Full)
    requires Good(c) && d < |c.qs| && Committed(c.qs[d])
    ensures Leads(c, c') && Nearer(c, c')
    decreases OwnerLeft(c.qs[d].owner)
  {
    hide *;
    GoodInv(c, d);
    CommittedGoes(c.qs[d]);
    var b := OwnerStep(c.qs[d].owner);
    OnGoes(c, d, b);
    Advance(c, On(d, b));
    var c1 := DoAct(c, On(d, b));
    if AbsStep(c, On(d, b)).Some? {
      c' := c1;
      LeadsHere(c1);
    } else {
      EventIsStep(c, d, b);
      LevelParts(c, c1);
      c' := Drive(c1, d);
      NearerAlso(c, c1, c');
    }
    LeadsFrom(c, On(d, b), c');
  }

  lemma LevelParts(c: Full, c': Full)
    requires Level(c, c')
    ensures Good(c') && |c'.qs| == |c.qs| && |c'.core.tasks| == |c.core.tasks| && Abs(c') == Abs(c)
  {
    hide Good, Abs;
  }

  lemma NearerAlso(c: Full, c1: Full, c': Full)
    requires Level(c, c1) && Nearer(c1, c')
    ensures Nearer(c, c')
  {
    hide Good, Abs, Less;
  }

  // ---- nothing under way -------------------------------------------------------------------

  ghost predicate AllAtRest(c: Full) { forall d :: 0 <= d < |c.qs| ==> AtRest(c.qs[d]) }

  lemma RestServes(c: Full)
    requires Good(c) && AllAtRest(c)
    ensures |c.serves| == |c.qs| && forall d :: 0 <= d < |c.qs| ==> c.serves[d] == None
  {
    assert forall d :: 0 <= d < |c.qs| ==> c.qs[d].owner == Q.Resting;
    hide WF, CountInv, QsOk, HandsIn, Abs, Wants, AtRest;
  }

  lemma {:induction false} NoHands(qs: seq<Q.State>, n: nat)
    requires forall d :: 0 <= d < |qs| ==> AtRest(qs[d])
    ensures forall k :: 0 <= k < n ==> AllHands(qs, n)[k] == 0
  {
    hide Hands, AtRest;
    forall k: nat | k < n ensures AllHands(qs, n)[k] == 0 { RestHands(qs, k); }
  }

  lemma LiftNothing(ts: seq<Task>, h: seq<nat>)
    requires |h| == |ts| && forall k :: 0 <= k < |h| ==> h[k] == 0
    ensures Lifted(ts, h) == ts
  {
  }

  /** Then the composed state is the ideal one, deques apart. */
  lemma RestIsCore(c: Full)
    requires Good(c) && AllAtRest(c)
    ensures WF(c.core) && Abs(c) == c.core.(deques := Deques(c.qs))
  {
    var h := AllHands(c.qs, |c.core.tasks|);
    NoHands(c.qs, |c.core.tasks|);
    hide WF, CountInv, QsOk, HandsIn, ServesOk, AtRest, AllHands, Lifted;
    LiftNothing(c.core.tasks, h);
    LiftWF(c.core, h, Deques(c.qs));
  }

  /** dequeue_front on a deque that holds something. */
  lemma TakeOne(c: Full, d: nat) returns (c': Full)
    requires Good(c) && d < |c.qs| && c.qs[d].owner == Q.Resting && R.Contents(c.qs[d]) != []
    ensures Leads(c, c') && Nearer(c, c')
  {
    hide *;
    GoodInv(c, d);
    DequeueCommits(c.qs[d]);
    OnGoes(c, d, Q.Dequeue);
    Advance(c, On(d, Q.Dequeue));
    var c1 := DoAct(c, On(d, Q.Dequeue));
    DequeueSilent(c, d);
    LevelParts(c, c1);
    c' := Drive(c1, d);
    NearerAlso(c, c1, c');
    LeadsFrom(c, On(d, Q.Dequeue), c');
  }

  lemma DequeueCommits(q: Q.State)
    requires Q.Inv(q) && q.owner == Q.Resting && R.Contents(q) != []
    ensures Q.Enabled(q, Q.Dequeue) && |q.entries| == Q.SIZE && Committed(Q.Do(q, Q.Dequeue))
  {
    hide Bytes.Byte, Bytes.Slot, Bytes.Next, Bytes.Prev;
  }

  lemma DequeueSilent(c: Full, d: nat)
    ensures AbsStep(c, On(d, Q.Dequeue)) == None
  {
    hide Bytes.Byte, Bytes.Slot, Bytes.Next, Bytes.Prev, Q.LooksFull;
  }

  /** enqueue, or the inline execution. */
  lemma PutOne(c: Full, d: nat, who: Server) returns (c': Full)
    requires Good(c) && AllAtRest(c) && d < |c.qs| && Wants(c.core, who, Wanted(c.core, who))
    ensures Leads(c, c') && Nearer(c, c')
  {
    var act := Begin(d, who);
    BeginGoes(c, d, who);
    hide *;
    Advance(c, act);
    var c1 := DoAct(c, act);
    BeginCommits(c, d, who);
    LevelParts(c, c1);
    c' := Drive(c1, d);
    NearerAlso(c, c1, c');
    LeadsFrom(c, act, c');
  }

  lemma BeginGoes(c: Full, d: nat, who: Server)
    requires Good(c) && AllAtRest(c) && d < |c.qs| && Wants(c.core, who, Wanted(c.core, who))
    ensures GoesOn(c, Begin(d, who))
  {
    RestServes(c);
    RestIsCore(c);
    GoodEntries(c, d);
    assert AtRest(c.qs[d]);
    hide WF, CountInv, Abs, Wants, HandsIn, QsOk;
  }

  lemma BeginCommits(c: Full, d: nat, who: Server)
    requires CanAct(c, Begin(d, who))
    ensures AbsStep(c, Begin(d, who)) == None && d < |c.qs|
    ensures var c1 := DoAct(c, Begin(d, who)); d < |c1.qs| && Committed(c1.qs[d])
  {
    hide Wants, Bytes.Byte, Bytes.Slot, Bytes.Next, Bytes.Prev, Q.LooksFull;
  }

  // ---- pushes and locks ----------------------------------------------------------------------

  /** Whose operation a step on a stack is. */
  function OpServer(a: Step): Server { if a.Lock? then Agent(a.k) else Parent }

  lemma OpHere(s: State, a: Step)
    requires WF(s) && Enabled(s, a) && IsCore(a) && !NoStack(s, a)
    ensures OpReady(s, OpServer(a)) && OpOf(s, OpServer(a)).value.a == a
  {
    if !a.Lock? { TargetExists(s); }
    hide WF;
  }

  lemma TargetExists(s: State)
    requires WF(s) && PushTarget(s).Some?
    ensures PushTarget(s).value < |s.tasks|
  {
    var t := |s.tasks| - 1;
    if s.pc.Scan? {
      assert ElemOk(s.elems[s.table[s.tasks[t].acc[s.pc.p].block]], s.elems, |s.tasks|);
    } else if s.pc.Walk? {
      assert Within(s.pc.rest, 0, |s.tasks|);
    } else {
      var e := s.elems[s.table[s.tasks[t].acc[s.pc.p].block]];
      assert ElemOk(e, s.elems, |s.tasks|);
      assert ElemOk(s.elems[e.dep.value], s.elems, |s.tasks|);
    }
  }

  /** A push or a lock that nobody disturbs needs one look at the top, or two, and one swap. */
  lemma {:induction false} OpRuns(c: Full, who: Server, tries: nat) returns (c': Full)
    requires Good(c) && WF(c.core) && OpReady(c.core, who)
    requires tries == 2 || (tries == 1 && who in c.seen) || (tries == 0 && who in c.seen && c.seen[who] == c.core.tasks[OpOf(c.core, who).value.w].notify)
    ensures Leads(c, c') && Nearer(c, c')
    decreases tries
  {
    hide *;
    var act := if who in c.seen then SwapTop(who) else ReadTop(who);
    OpGoes(c, who, act);
    Advance(c, act);
    var c1 := DoAct(c, act);
    if AbsStep(c, act).Some? {
      c' := c1;
      LeadsHere(c1);
    } else {
      OpSees(c, who, act);
      LevelParts(c, c1);
      c' := OpRuns(c1, who, 0);
      NearerAlso(c, c1, c');
    }
    LeadsFrom(c, act, c');
  }

  lemma OpGoes(c: Full, who: Server, act: Act)
    requires WF(c.core) && OpReady(c.core, who) && act == if who in c.seen then SwapTop(who) else ReadTop(who)
    ensures GoesOn(c, act)
  {
    hide WF, OpReady;
  }

  lemma OpSees(c: Full, who: Server, act: Act)
    requires WF(c.core) && OpReady(c.core, who) && act == if who in c.seen then SwapTop(who) else ReadTop(who)
    requires CanAct(c, act) && AbsStep(c, act) == None
    ensures !(who in c.seen && c.seen[who] == c.core.tasks[OpOf(c.core, who).value.w].notify)
    ensures var c1 := DoAct(c, act);
      && c1.core == c.core && who in c1.seen && c1.seen[who] == c.core.tasks[OpOf(c.core, who).value.w].notify
  {
    hide WF, OpOf, Do, Enabled;
  }

  // ---- one step further ----------------------------------------------------------------------

  lemma CoreGoes(c: Full, a: Step)
    requires WF(c.core) && IsCore(a) && NoStack(c.core, a) && Enabled(c.core, a) && !a.Spawn?
    ensures GoesOn(c, Core(a)) && AbsStep(c, Core(a)) == Some(a)
  {
    hide WF, NoStack, Enabled;
  }

  lemma SameEnabled(s: State, dq: seq<seq<nat>>, a: Step)
    requires IsCore(a)
    ensures Enabled(s.(deques := dq), a) == Enabled(s, a)
  {
  }

  /** Every enabled step of the ideal machine can be brought about. */
  lemma Perform(c: Full, a: Step) returns (c': Full)
    requires Good(c) && AllAtRest(c) && Enabled(Abs(c), a) && !a.Spawn?
    ensures Leads(c, c') && Nearer(c, c')
  {
    hide *;
    RestIsCore(c);
    if IsCore(a) {
      SameEnabled(c.core, Deques(c.qs), a);
      if NoStack(c.core, a) {
        CoreGoes(c, a);
        Advance(c, Core(a));
        c' := DoAct(c, Core(a));
        LeadsHere(c');
        LeadsFrom(c, Core(a), c');
      } else {
        OpHere(c.core, a);
        c' := OpRuns(c, OpServer(a), 2);
      }
    } else if a.ParentPut? || a.Enqueue? {
      var who := if a.ParentPut? then Parent else Agent(a.k);
      PutEnabled(c, a, who);
      c' := PutOne(c, a.d, who);
    } else {
      TakeEnabled(c, a);
      c' := TakeOne(c, a.d);
    }
  }

  lemma PutEnabled(c: Full, a: Step, who: Server)
    requires Good(c) && Abs(c) == c.core.(deques := Deques(c.qs)) && Enabled(Abs(c), a) && (a.ParentPut? || a.Enqueue?)
    requires who == if a.ParentPut? then Parent else Agent(a.k)
    ensures a.d < |c.qs| && Wants(c.core, who, Wanted(c.core, who))
  {
    GoodParts(c);
    AbsDeque(c);
    hide *;
    PutWants(Abs(c), a);
    SameWants(c.core, Deques(c.qs), who);
  }

  lemma PutWants(s: State, a: Step)
    requires WF(s) && Enabled(s, a) && (a.ParentPut? || a.Enqueue?)
    ensures a.d < |s.deques|
    ensures var who := if a.ParentPut? then Parent else Agent(a.k); Wants(s, who, Wanted(s, who))
  {
    hide TasksOk, ElemsOk, TableOk, DequesOk;
  }

  lemma SameWants(s: State, dq: seq<seq<nat>>, who: Server)
    ensures Wanted(s.(deques := dq), who) == Wanted(s, who)
    ensures forall x :: Wants(s.(deques := dq), who, x) == Wants(s, who, x)
  {
  }

  lemma TakeEnabled(c: Full, a: Step)
    requires Good(c) && AllAtRest(c) && Enabled(Abs(c), a) && !IsCore(a) && !(a.ParentPut? || a.Enqueue?)
    ensures (a.PopFront? || a.Steal?) && a.d < |c.qs| && c.qs[a.d].owner == Q.Resting && R.Contents(c.qs[a.d]) != []
  {
    AbsDeque(c);
    TakeNeeds(Abs(c), a);
    RestingHere(c, a.d);
    hide *;
  }

  lemma TakeNeeds(s: State, a: Step)
    requires Enabled(s, a) && !IsCore(a) && !(a.ParentPut? || a.Enqueue?)
    ensures (a.PopFront? || a.Steal?) && a.d < |s.deques| && s.deques[a.d] != []
  {
  }

  lemma RestingHere(c: Full, d: nat)
    requires AllAtRest(c) && d < |c.qs|
    ensures c.qs[d].owner == Q.Resting
  {
    assert AtRest(c.qs[d]);
  }

  // ---- completion ------------------------------------------------------------------------------

  /** Nothing is left to do. */
  ghost predicate Settled(c: Full) {
    && AllAtRest(c) && AllDone(c.core) && forall d :: 0 <= d < |c.qs| ==> R.Contents(c.qs[d]) == []
  }

  lemma NothingLeft(s: State, d: nat)
    requires WF(s) && CountInv(s) && AllDone(s) && d < |s.deques|
    ensures s.deques[d] == []
  {
    if s.deques[d] != [] {
      var x := s.deques[d][0];
      StepKeeps(s, Steal(d));
      FrontRuns(s, d);
      hide WF, Do;
      RunsOnce(Do(s, Steal(d)), x);
    }
  }

  lemma FrontRuns(s: State, d: nat)
    requires WF(s) && d < |s.deques| && s.deques[d] != []
    ensures var x, s' := s.deques[d][0], Do(s, Steal(d));
      x < |s.tasks| == |s'.tasks| && s'.tasks[x].runs == s.tasks[x].runs + 1
  {
    assert Within(s.deques[d], 0, |s.tasks|);
  }

  lemma IsSettled(c: Full)
    requires Good(c) && AllAtRest(c) && c.core.pc == Idle && !exists t :: t in c.core.tasks && t.status != Complete
    ensures Settled(c)
  {
    RestIsCore(c);
    GoodParts(c);
    AbsDeque(c);
    hide WF, CountInv, Good, Abs, AtRest, R.Contents, Deques;
    forall k | 0 <= k < |c.core.tasks| ensures c.core.tasks[k].status == Complete && c.core.tasks[k].runs == 1 {
      assert c.core.tasks[k] in c.core.tasks;
      CompleteRan(Abs(c), k);
    }
    forall d | 0 <= d < |c.qs| ensures R.Contents(c.qs[d]) == [] { NothingLeft(Abs(c), d); }
  }

  /** From a state whose invariant holds, what is under way can be brought to its end. */
  lemma {:induction false} Settle(c: Full) returns (c': Full)
    requires Good(c) && c.qs != []
    ensures Leads(c, c') && Settled(c') && |c'.core.tasks| == |c.core.tasks| && |c'.qs| == |c.qs|
    decreases ParentWork(Abs(c)), WalkWork(Abs(c)), AgentWork(Abs(c)), CallWork(c.qs)
  {
    if !AllAtRest(c) {
      var d: nat :| d < |c.qs| && !AtRest(c.qs[d]);
      hide *;
      var act := Busy(c, d);
      Advance(c, act);
      LessIs(c, DoAct(c, act), AbsStep(c, act).Some?);
      c' := Settle(DoAct(c, act));
      LeadsFrom(c, act, c');
    } else if c.core.pc != Idle || exists t :: t in c.core.tasks && t.status != Complete {
      hide *;
      var a := NextStep(c);
      var c1 := Perform(c, a);
      LessIs(c, c1, true);
      c' := Settle(c1);
      LeadsOn(c, c1, c');
    } else {
      LeadsHere(c);
      IsSettled(c);
      c' := c;
    }
  }

  lemma LessIs(c: Full, c': Full, nearer: bool)
    requires if nearer then Nearer(c, c') else Level(c, c')
    ensures Good(c') && |c'.qs| == |c.qs| && |c'.core.tasks| == |c.core.tasks|
    ensures if nearer then
              || ParentWork(Abs(c')) < ParentWork(Abs(c))
              || (ParentWork(Abs(c')) == ParentWork(Abs(c)) && WalkWork(Abs(c')) < WalkWork(Abs(c)))
              || (ParentWork(Abs(c')) == ParentWork(Abs(c)) && WalkWork(Abs(c')) == WalkWork(Abs(c))
                  && AgentWork(Abs(c')) < AgentWork(Abs(c)))
            else Abs(c') == Abs(c)
  {
    hide Good, Abs, ParentWork, WalkWork, AgentWork;
  }

  lemma NextStep(c: Full) returns (a: Step)
    requires Good(c) && AllAtRest(c) && c.qs != []
    requires c.core.pc != Idle || exists t :: t in c.core.tasks && t.status != Complete
    ensures Enabled(Abs(c), a) && !a.Spawn?
  {
    RestIsCore(c);
    GoodParts(c);
    AbsDeque(c);
    hide WF, CountInv, Good, Abs, AtRest, Deques, Enabled;
    a := CanMove(Abs(c));
  }

  lemma {:induction false} LeadsOn(c: Full, c1: Full, c': Full)
    requires Leads(c, c1) && Leads(c1, c')
    ensures Leads(c, c')
  {
    hide GoesOn, CanAct, DoAct;
    var cs, acts :| Carries(c, cs, acts) && |cs| == |acts| + 1 && cs[|acts|] == c1;
    LeadsBack(c, c', cs, acts, |acts|);
  }

  lemma {:induction false} LeadsBack(c: Full, c': Full, cs: seq<Full>, acts: seq<Act>, n: nat)
    requires Carries(c, cs, acts) && n <= |acts| && Leads(cs[n], c')
    ensures Leads(c, c')
  {
    hide CanAct, FairAct, DoAct, Leads;
    if n > 0 {
      assert GoesOn(cs[n - 1], acts[n - 1]) && cs[n] == DoAct(cs[n - 1], acts[n - 1]);
      LeadsFrom(cs[n - 1], acts[n - 1], c');
      LeadsBack(c, c', cs, acts, n - 1);
    }
  }

  lemma {:induction false} QueueCount(threads: nat, thieves: nat, cs: seq<Full>, acts: seq<Act>, n: nat)
    requires FullRun(threads, thieves, cs, acts) && n < |cs|
    ensures |cs[n].qs| == threads
  {
    hide CanAct, DoAct;
    if n > 0 {
      FullStep(threads, thieves, cs, acts, n - 1);
      ActQs(cs[n - 1], acts[n - 1]);
      QueueCount(threads, thieves, cs, acts, n - 1);
    }
  }

  /** Exactly once by quiescence, over the deques of src/queue.c: from every state of a
      fair run, some continuation without further calls ends with every task complete,
      every body run exactly once, and the deques empty. */
  lemma {:induction false} Quiescence(threads: nat, thieves: nat, cs: seq<Full>, acts: seq<Act>, n: nat)
      returns (more: seq<Full>, next: seq<Act>)
    requires threads > 0 && FullRun(threads, thieves, cs, acts) && FairTo(cs, acts, n) && n < |cs|
    ensures Carries(cs[n], more, next) && |more| == |next| + 1
    ensures Settled(more[|next|]) && |more[|next|].core.tasks| == |cs[n].core.tasks|
  {
    var tr := Projects(threads, thieves, cs, acts, n);
    QueueCount(threads, thieves, cs, acts, n);
    hide Good, FullRun, FairTo, Settled, Carries, DepMachine.IsRun;
    var c' := Settle(cs[n]);
    more, next :| Carries(cs[n], more, next) && |more| == |next| + 1 && more[|next|] == c';
  }
}
