/** The sibling machine over the deques of src/queue.c and the stacks of src/stack.c:
    the steps that DepMachine takes on a whole deque are taken apart into the accesses of
    module Deque, with bytes that wrap, and a body starts when the caller of dequeue_front
    or dequeue_back has its task in hand; stack_push and stack_lock are a read of the top
    and compare-and-swaps until one succeeds.  As long as swaps are fair, every such
    run is one of DepMachine. */
module DepDeques {
  import opened Sums
  import opened DepMachine
  import opened DepCount
  import opened DepOrder
  import opened DepProgress
  import Bytes
  import Q = Deque
  import R = DequeRuns

  /** On whose behalf a thread is in enqueue: the parent's, or of the task that it is
      releasing. */
  datatype Server = Parent | Agent(k: nat)

  /** `core` is the machine without its deques; deque d is qs[d], and serves[d] tells
      for whom its owner enqueues.  `seen` holds the tops that were read by pushes and
      locks under way; nodes are not reused, so a top stands for its list. */
  datatype Full = Full(core: State, qs: seq<Q.State>, serves: seq<Option<Server>>, seen: map<Server, seq<nat>>)

  datatype Act = Core(a: Step) | ReadTop(who: Server) | SwapTop(who: Server) | Begin(d: nat, who: Server) | On(d: nat, b: Q.Step)

  /** The steps that do not touch a deque. */
  predicate IsCore(a: Step) { !a.ParentPut? && !a.Enqueue? && !a.PopFront? && !a.Steal? }

  /** The stack that the parent is about to push on, once its own tests have let it. */
  function PushTarget(s: State): Option<nat> {
    if s.tasks == [] then None
    else
      var t, last := |s.tasks| - 1, s.tasks[|s.tasks| - 1].last;
      if s.pc.Scan? && s.pc.p < |s.tasks[t].acc| then
        var b := s.tasks[t].acc[s.pc.p].block;
        if b in s.table && s.table[b] < |s.elems| && s.elems[s.table[b]].out
           && s.elems[s.table[b]].owner != t && last != Some(s.elems[s.table[b]].owner)
        then Some(s.elems[s.table[b]].owner) else None
      else if s.pc.Walk? && s.pc.rest != [] then
        if s.pc.rest[0] != t && last != Some(s.pc.rest[0]) then Some(s.pc.rest[0]) else None
      else if s.pc.Join? && s.pc.p < |s.tasks[t].acc| && s.tasks[t].acc[s.pc.p].block in s.table
              && s.table[s.tasks[t].acc[s.pc.p].block] < |s.elems| then
        var e := s.elems[s.table[s.tasks[t].acc[s.pc.p].block]];
        if e.dep.Some? && e.dep.value < |s.elems| && e.owner != t && last != Some(e.owner)
        then Some(s.elems[e.dep.value].owner) else None
      else None
  }

  /** A push or a lock: the stack, and the step that it is when it is over. */
  datatype StackOp = StackOp(w: nat, a: Step)

  function OpOf(s: State, who: Server): Option<StackOp> {
    match who
    case Parent =>
      (match PushTarget(s)
       case None => None
       case Some(w) => Some(StackOp(w, if s.pc.Scan? then Analyse else if s.pc.Walk? then Reader else JoinPush)))
    case Agent(k) => if Enabled(s, Lock(k)) then Some(StackOp(k, Lock(k))) else None
  }

  /** Steps with no access to a stack that others push on or lock. */
  predicate NoStack(s: State, a: Step) {
    !a.Lock? && (IsAnalysis(a) ==> PushTarget(s) == None)
  }

  /** `who` has won the swap of task x and is about to enqueue it. */
  predicate Wants(s: State, who: Server, x: nat) {
    match who
    case Parent => s.pc == Putting && s.tasks != [] && x == |s.tasks| - 1
    case Agent(k) => k < |s.tasks| && s.tasks[k].hand == Put(x)
  }

  function Wanted(s: State, who: Server): nat {
    match who
    case Parent => if s.tasks != [] then |s.tasks| - 1 else 0
    case Agent(k) => if k < |s.tasks| && s.tasks[k].hand.Put? then s.tasks[k].hand.x else 0
  }

  /** enqueue has returned, or the body is executed inline instead. */
  function Served(s: State, who: Server): State {
    match who
    case Parent => s.(pc := Idle)
    case Agent(k) => if k < |s.tasks| then SetTask(s, k, s.tasks[k].(hand := Empty)) else s
  }

  /** The body of x starts. */
  function Starts(s: State, x: nat): State {
    if x < |s.tasks| then SetTask(s, x, s.tasks[x].(runs := s.tasks[x].runs + 1)) else s
  }

  predicate OpReady(s: State, who: Server) {
    OpOf(s, who).Some? && OpOf(s, who).value.w < |s.tasks| && Enabled(s, OpOf(s, who).value.a)
  }

  /** Is the operation over with this access: has the stack turned out to be closed, or the
      compare-and-swap succeeded? */
  predicate OpEnds(c: Full, act: Act)
    requires (act.ReadTop? || act.SwapTop?) && OpReady(c.core, act.who)
  {
    var t := c.core.tasks[OpOf(c.core, act.who).value.w];
    t.closed || (act.SwapTop? && act.who in c.seen && c.seen[act.who] == t.notify)
  }

  /** What the thread remembers: a top to swap, or nothing when it is done. */
  function SeenAfter(c: Full, act: Act): map<Server, seq<nat>>
    requires (act.ReadTop? || act.SwapTop?) && OpReady(c.core, act.who)
  {
    if OpEnds(c, act) then c.seen - {act.who}
    else c.seen[act.who := c.core.tasks[OpOf(c.core, act.who).value.w].notify]
  }

  ghost predicate CanAct(c: Full, act: Act) {
    match act
    case Core(a) => WF(c.core) && IsCore(a) && NoStack(c.core, a) && Enabled(c.core, a)
    case ReadTop(who) => WF(c.core) && OpReady(c.core, who) && who !in c.seen
    case SwapTop(who) => WF(c.core) && OpReady(c.core, who) && who in c.seen
    case Begin(d, who) =>
      && d < |c.qs| == |c.serves| && c.qs[d].owner == Q.Resting && Wants(c.core, who, Wanted(c.core, who))
      && |c.qs[d].entries| == Q.SIZE
      && forall e :: 0 <= e < |c.serves| ==> c.serves[e] != Some(who)
    case On(d, b) =>
      && d < |c.qs| == |c.serves| && !b.Enqueue? && Q.Enabled(c.qs[d], b) && |c.qs[d].entries| == Q.SIZE
      && (b.Check? || b.Store? ==> c.serves[d].Some?)
  }

  /** The task that a call on the deque returns to its caller, if any. */
  function Given(q: Q.State, b: Q.Step): Q.Option<nat>
    requires Q.Enabled(q, b)
  {
    if b.Return? then q.owner.r else if b.Leave? then q.thieves[b.i].r else Q.None
  }

  function DoOn(c: Full, d: nat, b: Q.Step): Full
    requires d < |c.qs| == |c.serves| && Q.Enabled(c.qs[d], b) && |c.qs[d].entries| == Q.SIZE
    requires b.Check? || b.Store? ==> c.serves[d].Some?
  {
    var q := c.qs[d];
    var c1 := c.(qs := c.qs[d := Q.Do(q, b)]);
    if b.Store? then
      c1.(core := Served(c.core, c.serves[d].value), serves := c.serves[d := None])
    else if b.Check? && Q.LooksFull(q.bottom, q.top) then
      c1.(core := Starts(Served(c.core, c.serves[d].value), q.owner.x), serves := c.serves[d := None])
    else if Given(q, b).Some? then
      c1.(core := Starts(c.core, Given(q, b).value))
    else c1
  }

  ghost function DoAct(c: Full, act: Act): Full
    requires CanAct(c, act)
  {
    match act
    case Core(a) => c.(core := Do(c.core, a))
    case ReadTop(who) =>
      c.(core := if OpEnds(c, act) then Do(c.core, OpOf(c.core, who).value.a) else c.core, seen := SeenAfter(c, act))
    case SwapTop(who) =>
      c.(core := if OpEnds(c, act) then Do(c.core, OpOf(c.core, who).value.a) else c.core, seen := SeenAfter(c, act))
    case Begin(d, who) =>
      c.(qs := c.qs[d := Q.Do(c.qs[d], Q.Enqueue(Wanted(c.core, who)))], serves := c.serves[d := Some(who)])
    case On(d, b) => DoOn(c, d, b)
  }

  /** `thieves` calls of dequeue_back at most are under way on each deque. */
  ghost function FullStart(threads: nat, thieves: nat): Full {
    Full(Init(0), seq(threads, _ => R.Init(thieves)), seq(threads, _ => None), map[])
  }

  ghost predicate FullRun(threads: nat, thieves: nat, cs: seq<Full>, acts: seq<Act>) {
    && |cs| == |acts| + 1 && cs[0] == FullStart(threads, thieves)
    && forall i :: 0 <= i < |acts| ==> CanAct(cs[i], acts[i]) && cs[i + 1] == DoAct(cs[i], acts[i])
  }

  /** A thief's swap is not fooled by a byte that has come round, or takes what is first
      at that moment. */
  ghost predicate FairAct(c: Full, act: Act) {
    act.On? && act.d < |c.qs| && Q.Enabled(c.qs[act.d], act.b) ==> R.Fair(c.qs[act.d], act.b)
  }

  /** So do all the swaps before state n. */
  ghost predicate FairTo(cs: seq<Full>, acts: seq<Act>, n: nat) {
    forall i :: 0 <= i < n && i < |acts| && i < |cs| ==> FairAct(cs[i], acts[i])
  }

  // ---- the state it stands for --------------------------------------------------

  function HandsBy(qs: seq<Q.State>, x: nat): (v: seq<nat>)
    ensures |v| == |qs|
  {
    seq(|qs|, d requires 0 <= d < |qs| => R.InHands(qs[d], x))
  }

  /** How often x has been taken off a deque and not been handed over yet. */
  function Hands(qs: seq<Q.State>, x: nat): nat { Sum(HandsBy(qs, x)) }

  lemma HandsUpdate(qs: seq<Q.State>, d: nat, q: Q.State, x: nat)
    requires d < |qs|
    ensures Hands(qs[d := q], x) + R.InHands(qs[d], x) == Hands(qs, x) + R.InHands(q, x)
  {
    assert HandsBy(qs[d := q], x) == HandsBy(qs, x)[d := R.InHands(q, x)];
    SumUpdate(HandsBy(qs, x), d, R.InHands(q, x));
  }

  function Lifted(ts: seq<Task>, h: seq<nat>): (r: seq<Task>)
    requires |h| == |ts|
    ensures |r| == |ts|
  {
    seq(|ts|, k requires 0 <= k < |ts| => ts[k].(runs := ts[k].runs + h[k]))
  }

  /** More bodies counted as started, and other deques. */
  function Lift(s: State, h: seq<nat>, dq: seq<seq<nat>>): State
    requires |h| == |s.tasks|
  {
    s.(tasks := Lifted(s.tasks, h), deques := dq)
  }

  lemma LiftedUpdate(ts: seq<Task>, h: seq<nat>, k: nat, t: Task)
    requires |h| == |ts| && k < |ts|
    ensures Lifted(ts[k := t], h) == Lifted(ts, h)[k := t.(runs := t.runs + h[k])]
  {
  }

  lemma LiftWF(s: State, h: seq<nat>, dq: seq<seq<nat>>)
    requires |h| == |s.tasks|
    ensures WF(s) && DequesOk(dq, |s.tasks|) ==> WF(Lift(s, h, dq))
    ensures WF(Lift(s, h, dq)) && DequesOk(s.deques, |s.tasks|) ==> WF(s)
  {
    var s', n := Lift(s, h, dq), |s.tasks|;
    assert TasksOk(s.tasks) <==> TasksOk(s'.tasks) by { LiftTasks(s.tasks, h); }
    assert PcOk(s.pc, s.tasks, s.table, s.elems, s.base) <==> PcOk(s'.pc, s'.tasks, s'.table, s'.elems, s'.base);
    hide TasksOk, ElemsOk, PcOk, DequesOk, TableOk;
  }

  lemma LiftTasks(ts: seq<Task>, h: seq<nat>)
    requires |h| == |ts|
    ensures TasksOk(ts) <==> TasksOk(Lifted(ts, h))
  {
    var ts' := Lifted(ts, h);
    if TasksOk(ts) {
      forall k | 0 <= k < |ts'| ensures TaskOk(ts'[k], k, |ts'|) { assert TaskOk(ts[k], k, |ts|); }
    }
    if TasksOk(ts') {
      forall k | 0 <= k < |ts| ensures TaskOk(ts[k], k, |ts|) { assert TaskOk(ts'[k], k, |ts'|); }
    }
  }

  // ---- steps that touch no deque -------------------------------------------------

  lemma LiftPush(s: State, h: seq<nat>, dq: seq<seq<nat>>, w: nat)
    requires |h| == |s.tasks| && w < |s.tasks|
    ensures PushOn(Lift(s, h, dq), w) == Lift(PushOn(s, w), h, dq)
  {
    var t := |s.tasks| - 1;
    var ts := s.tasks[w := s.tasks[w].(notify := [t] + s.tasks[w].notify)];
    LiftedUpdate(s.tasks, h, w, s.tasks[w].(notify := [t] + s.tasks[w].notify));
    LiftedUpdate(ts, h, t, ts[t].(last := Some(w)));
  }

  lemma LiftAttempt(s: State, h: seq<nat>, dq: seq<seq<nat>>, seen: nat, w: nat)
    requires |h| == |s.tasks| && s.tasks != [] && w < |s.tasks|
    ensures Skips(Lift(s, h, dq), seen, w) == Skips(s, seen, w)
    ensures |Attempt(s, seen, w).tasks| == |s.tasks|
    ensures Attempt(Lift(s, h, dq), seen, w) == Lift(Attempt(s, seen, w), h, dq)
    ensures |PushOn(s, w).tasks| == |s.tasks| && PushOn(Lift(s, h, dq), w) == Lift(PushOn(s, w), h, dq)
  {
    LiftPush(s, h, dq, w);
  }

  lemma LiftAnalyse(s: State, h: seq<nat>, dq: seq<seq<nat>>, c: Access)
    requires |h| == |s.tasks| && CanAnalyse(s, c)
    ensures CanAnalyse(Lift(s, h, dq), c) && |Analysis(s, c).tasks| == |s.tasks|
    ensures Analysis(Lift(s, h, dq), c) == Lift(Analysis(s, c), h, dq)
  {
    if c.block in s.table {
      var w := s.elems[s.table[c.block]].owner;
      var s1 := s.(table := s.table[c.block := s.base + c.arg]);
      LiftAttempt(s, h, dq, w, w);
      LiftAttempt(s1, h, dq, w, w);
      assert OwnerAlive(Lift(s, h, dq), s.table[c.block]) == OwnerAlive(s, s.table[c.block]);
    }
    hide Attempt, PushOn, Skips, OwnerAlive;
  }

  lemma LiftReader(s: State, h: seq<nat>, dq: seq<seq<nat>>)
    requires |h| == |s.tasks| && s.pc.Walk? && s.tasks != [] && Within(s.pc.rest, 0, |s.tasks|)
    ensures |DoReader(s).tasks| == |s.tasks| && DoReader(Lift(s, h, dq)) == Lift(DoReader(s), h, dq)
  {
    if s.pc.rest != [] { LiftAttempt(s, h, dq, s.pc.rest[0], s.pc.rest[0]); }
    hide Attempt, Skips;
  }

  lemma LiftJoin(s: State, h: seq<nat>, dq: seq<seq<nat>>)
    requires |h| == |s.tasks| && s.pc.Join? && WF(s) && WF(Lift(s, h, dq))
    ensures |DoJoinPush(s).tasks| == |s.tasks| && DoJoinPush(Lift(s, h, dq)) == Lift(DoJoinPush(s), h, dq)
  {
    var e := Joined(s);
    assert ElemOk(e, s.elems, |s.tasks|);
    assert Joined(Lift(s, h, dq)) == e;
    hide Attempt, Skips, WF, Joined;
    if e.dep.Some? { LiftAttempt(s, h, dq, e.owner, s.elems[e.dep.value].owner); }
  }

  lemma LiftSpawn(s: State, h: seq<nat>, dq: seq<seq<nat>>, args: seq<Arg>)
    requires |h| == |s.tasks| && s.pc.Idle? && WF(s) && WF(Lift(s, h, dq))
    ensures |Do(s, Spawn(args)).tasks| == |h + [0]|
    ensures Do(Lift(s, h, dq), Spawn(args)) == Lift(Do(s, Spawn(args)), h + [0], dq)
  {
    hide WF;
    assert Lifted(s.tasks + [NewTask(args)], h + [0]) == Lifted(s.tasks, h) + [NewTask(args)];
  }

  lemma LiftCall(s: State, h: seq<nat>, dq: seq<seq<nat>>, a: Step)
    requires |h| == |s.tasks| && WF(s) && WF(Lift(s, h, dq)) && Enabled(s, a) && (a.Finish? || a.Publication? || a.ParentClaim?)
    ensures Enabled(Lift(s, h, dq), a) && |Do(s, a).tasks| == |s.tasks| && Do(Lift(s, h, dq), a) == Lift(Do(s, a), h, dq)
  {
    var t := |s.tasks| - 1;
    LiftedUpdate(s.tasks, h, t, Do(s, a).tasks[t]);
    hide WF;
  }

  lemma LiftStatus(s: State, h: seq<nat>, dq: seq<seq<nat>>, a: Step)
    requires |h| == |s.tasks| && WF(s) && WF(Lift(s, h, dq)) && Enabled(s, a) && (a.End? || a.Release? || a.Retire?)
    ensures Enabled(Lift(s, h, dq), a) && |Do(s, a).tasks| == |s.tasks| && Do(Lift(s, h, dq), a) == Lift(Do(s, a), h, dq)
  {
    var t := s.tasks[a.k];
    LiftedUpdate(s.tasks, h, a.k, t.(status := if a.End? then Executed else if a.Release? then Releasing else Complete));
    LiftedAt(s.tasks, h, a.k);
    hide WF, Lifted;
  }

  lemma LiftedAt(ts: seq<Task>, h: seq<nat>, k: nat)
    requires |h| == |ts| && k < |ts|
    ensures Lifted(ts, h)[k] == ts[k].(runs := ts[k].runs + h[k])
  {
  }

  lemma LiftStack(s: State, h: seq<nat>, dq: seq<seq<nat>>, a: Step)
    requires |h| == |s.tasks| && WF(s) && WF(Lift(s, h, dq)) && Enabled(s, a) && (a.Lock? || a.Pop?)
    ensures Enabled(Lift(s, h, dq), a) && |Do(s, a).tasks| == |s.tasks| && Do(Lift(s, h, dq), a) == Lift(Do(s, a), h, dq)
  {
    LiftedUpdate(s.tasks, h, a.k, Do(s, a).tasks[a.k]);
    hide WF;
  }

  lemma LiftHand(s: State, h: seq<nat>, dq: seq<seq<nat>>, a: Step)
    requires |h| == |s.tasks| && WF(s) && WF(Lift(s, h, dq)) && Enabled(s, a) && (a.Spin? || a.Test?)
    ensures Enabled(Lift(s, h, dq), a) && |Do(s, a).tasks| == |s.tasks| && Do(Lift(s, h, dq), a) == Lift(Do(s, a), h, dq)
  {
    LiftedUpdate(s.tasks, h, a.k, Do(s, a).tasks[a.k]);
    HandSame(s, h, dq, a);
    hide WF;
  }

  /** What the hand does not depend on. */
  lemma HandSame(s: State, h: seq<nat>, dq: seq<seq<nat>>, a: Step)
    requires |h| == |s.tasks| && WF(s) && Enabled(s, a) && (a.Spin? || a.Test?)
    ensures var t, x := s.tasks[a.k], s.tasks[a.k].hand.x;
      && x < |s.tasks| && Lifted(s.tasks, h)[x].status == s.tasks[x].status && Lifted(s.tasks, h)[x].waitfor == s.tasks[x].waitfor
      && Lifted(s.tasks, h)[a.k] == t.(runs := t.runs + h[a.k])
  {
    assert TaskOk(s.tasks[a.k], a.k, |s.tasks|);
    hide TasksOk, ElemsOk, TableOk, DequesOk, PcOk;
  }

  lemma LiftFire(s: State, h: seq<nat>, dq: seq<seq<nat>>, k: nat)
    requires |h| == |s.tasks| && k < |s.tasks| && s.tasks[k].hand.Popped? && s.tasks[k].hand.x < |s.tasks|
    ensures |DoFire(s, k).tasks| == |s.tasks| && DoFire(Lift(s, h, dq), k) == Lift(DoFire(s, k), h, dq)
  {
    var x := s.tasks[k].hand.x;
    var f := s.tasks[x].fired + 1;
    LiftedUpdate(s.tasks, h, x, s.tasks[x].(fired := f));
    LiftedUpdate(s.tasks[x := s.tasks[x].(fired := f)], h, k, s.tasks[k].(hand := Counted(x, f)));
    hide Lifted;
  }

  lemma LiftSwap(s: State, h: seq<nat>, dq: seq<seq<nat>>, k: nat)
    requires |h| == |s.tasks| && k < |s.tasks| && s.tasks[k].hand.Claim? && s.tasks[k].hand.x < |s.tasks|
    ensures |DoSwap(s, k).tasks| == |s.tasks| && DoSwap(Lift(s, h, dq), k) == Lift(DoSwap(s, k), h, dq)
  {
    var x := s.tasks[k].hand.x;
    LiftedUpdate(s.tasks, h, x, s.tasks[x].(status := Scheduled));
    LiftedUpdate(s.tasks[x := s.tasks[x].(status := Scheduled)], h, k, s.tasks[k].(hand := Put(x)));
    LiftedUpdate(s.tasks, h, k, s.tasks[k].(hand := Empty));
  }

  lemma LiftTwo(s: State, h: seq<nat>, dq: seq<seq<nat>>, a: Step)
    requires |h| == |s.tasks| && WF(s) && WF(Lift(s, h, dq)) && Enabled(s, a) && (a.Fire? || a.Swap?)
    ensures Enabled(Lift(s, h, dq), a) && |Do(s, a).tasks| == |s.tasks| && Do(Lift(s, h, dq), a) == Lift(Do(s, a), h, dq)
  {
    assert TaskOk(s.tasks[a.k], a.k, |s.tasks|);
    hide WF, DoFire, DoSwap;
    if a.Fire? { LiftFire(s, h, dq, a.k); } else { LiftSwap(s, h, dq, a.k); }
  }

  /** They do the same whatever the deques hold. */
  lemma LiftStep(s: State, h: seq<nat>, dq: seq<seq<nat>>, a: Step)
    requires |h| == |s.tasks| && WF(s) && WF(Lift(s, h, dq)) && Enabled(s, a) && IsCore(a)
    ensures var h' := if a.Spawn? then h + [0] else h;
      Enabled(Lift(s, h, dq), a) && |Do(s, a).tasks| == |h'| && Do(Lift(s, h, dq), a) == Lift(Do(s, a), h', dq)
  {
    if a.Spawn? { LiftSpawn(s, h, dq, a.args); }
    else if a.Analyse? { LiftScan(s, h, dq); }
    else if a.Reader? { LiftReader(s, h, dq); LiftWalks(s, h, dq, a); }
    else if a.JoinPush? { LiftJoin(s, h, dq); LiftWalks(s, h, dq, a); }
    else if a.Finish? || a.Publication? || a.ParentClaim? { LiftCall(s, h, dq, a); }
    else if a.Fire? || a.Swap? { LiftTwo(s, h, dq, a); }
    else if a.Lock? || a.Pop? { LiftStack(s, h, dq, a); }
    else if a.Spin? || a.Test? { LiftHand(s, h, dq, a); }
    else { LiftStatus(s, h, dq, a); }
  }

  lemma LiftScan(s: State, h: seq<nat>, dq: seq<seq<nat>>)
    requires |h| == |s.tasks| && WF(s) && WF(Lift(s, h, dq)) && Enabled(s, Analyse)
    ensures Enabled(Lift(s, h, dq), Analyse) && |Do(s, Analyse).tasks| == |s.tasks|
    ensures Do(Lift(s, h, dq), Analyse) == Lift(Do(s, Analyse), h, dq)
  {
    var s' := Lift(s, h, dq);
    var c := s.tasks[|s.tasks| - 1].acc[s.pc.p];
    assert Enabled(s', Analyse) && s'.tasks[|s'.tasks| - 1].acc[s'.pc.p] == c;
    hide *;
    ScanFacts(s);
    ScanFacts(s');
    LiftAnalyse(s, h, dq, c);
    AnalysisCase(s, c);
    AnalysisCase(s', c);
  }

  lemma AnalysisCase(s: State, c: Access)
    requires CanAnalyse(s, c)
    ensures Analysis(s, c) == if c.out then AnalyseOut(s, c) else AnalyseIn(s, c)
  {
  }

  lemma LiftWalks(s: State, h: seq<nat>, dq: seq<seq<nat>>, a: Step)
    requires |h| == |s.tasks| && WF(s) && WF(Lift(s, h, dq)) && Enabled(s, a) && (a.Reader? || a.JoinPush?)
    ensures Enabled(Lift(s, h, dq), a)
    ensures Do(s, a) == if a.Reader? then DoReader(s) else DoJoinPush(s)
    ensures Do(Lift(s, h, dq), a) == if a.Reader? then DoReader(Lift(s, h, dq)) else DoJoinPush(Lift(s, h, dq))
  {
    hide WF, DoReader, DoJoinPush;
  }

  // ---- the invariant ---------------------------------------------------------------

  ghost predicate QsOk(qs: seq<Q.State>) { forall d :: 0 <= d < |qs| ==> Q.Inv(qs[d]) }

  predicate InEnqueue(q: Q.State) { q.owner.Adding? || q.owner.Writing? || q.owner.Storing? }

  /** Who enqueues, and for whom: nobody is served by two threads. */
  ghost predicate ServesOk(c: Full) {
    && |c.serves| == |c.qs|
    && (forall d :: 0 <= d < |c.qs| ==> (InEnqueue(c.qs[d]) <==> c.serves[d].Some?))
    && (forall d :: 0 <= d < |c.qs| && InEnqueue(c.qs[d]) ==> Wants(c.core, c.serves[d].value, c.qs[d].owner.x))
    && (forall d, e :: 0 <= d < e < |c.serves| && c.serves[d].Some? ==> c.serves[d] != c.serves[e])
  }

  ghost predicate HandsIn(qs: seq<Q.State>, n: nat) {
    forall d, x: nat :: 0 <= d < |qs| && R.InHands(qs[d], x) > 0 ==> x < n
  }

  function Deques(qs: seq<Q.State>): (dq: seq<seq<nat>>)
    ensures |dq| == |qs|
  {
    seq(|qs|, d requires 0 <= d < |qs| => R.Contents(qs[d]))
  }

  function AllHands(qs: seq<Q.State>, n: nat): (h: seq<nat>)
    ensures |h| == n
  {
    seq(n, k requires 0 <= k < n => Hands(qs, k))
  }

  /** The state of DepMachine that c stands for. */
  function Abs(c: Full): State {
    Lift(c.core, AllHands(c.qs, |c.core.tasks|), Deques(c.qs))
  }

  ghost predicate Good(c: Full) {
    && QsOk(c.qs) && ServesOk(c) && HandsIn(c.qs, |c.core.tasks|) && c.core.deques == []
    && WF(Abs(c)) && CountInv(Abs(c))
  }

  /** The step of DepMachine that it is, if it is one. */
  function AbsStep(c: Full, act: Act): Option<Step> {
    match act
    case Core(a) => Some(a)
    case ReadTop(who) => if OpReady(c.core, who) && OpEnds(c, act) then Some(OpOf(c.core, who).value.a) else None
    case SwapTop(who) => if OpReady(c.core, who) && OpEnds(c, act) then Some(OpOf(c.core, who).value.a) else None
    case Begin(_, _) => None
    case On(d, b) =>
      if d >= |c.qs| || d >= |c.serves| || !Q.Enabled(c.qs[d], b) || |c.qs[d].entries| != Q.SIZE then None
      else if b.Store? || (b.Check? && Q.LooksFull(c.qs[d].bottom, c.qs[d].top)) then
        (match c.serves[d]
         case None => None
         case Some(who) => Some(if who.Parent? then ParentPut(d) else Enqueue(who.k, d)))
      else
        var e := Q.EventOf(c.qs[d], b);
        if e.TakeLast? then Some(PopFront(d)) else if e.TakeFirst? then Some(Steal(d)) else None
  }

  /** What is to be shown of a step: it keeps the invariant, and is a step of DepMachine
      or none. */
  ghost predicate Simulates(c: Full, act: Act) {
    && CanAct(c, act) && Good(c) && Good(DoAct(c, act))
    && match AbsStep(c, act)
       case None => Abs(DoAct(c, act)) == Abs(c)
       case Some(a) => Enabled(Abs(c), a) && Abs(DoAct(c, act)) == Do(Abs(c), a)
  }

  lemma NewHands(qs: seq<Q.State>, n: nat)
    requires HandsIn(qs, n)
    ensures AllHands(qs, n + 1) == AllHands(qs, n) + [0]
  {
    forall d | 0 <= d < |qs| ensures HandsBy(qs, n)[d] == 0 { }
    SumZero(HandsBy(qs, n), |qs|);
  }

  lemma CallWants(s: State, a: Step, who: Server, x: nat)
    requires WF(s) && Enabled(s, a) && IsCore(a) && ByParent(a) && !IsAnalysis(a) && Wants(s, who, x)
    ensures Wants(Do(s, a), who, x)
  {
    hide WF;
  }

  lemma HandWants(s: State, a: Step, who: Server, x: nat)
    requires WF(s) && Enabled(s, a) && (a.Fire? || a.Swap?) && Wants(s, who, x)
    ensures Wants(Do(s, a), who, x)
  {
    assert TaskOk(s.tasks[a.k], a.k, |s.tasks|);
    hide WF;
  }

  lemma AgentWants(s: State, a: Step, who: Server, x: nat)
    requires WF(s) && Enabled(s, a) && IsCore(a) && !ByParent(a) && !a.Fire? && !a.Swap? && Wants(s, who, x)
    ensures Wants(Do(s, a), who, x)
  {
    hide WF;
  }

  lemma CoreWants(s: State, a: Step, who: Server, x: nat)
    requires WF(s) && Enabled(s, a) && IsCore(a) && Wants(s, who, x)
    ensures Wants(Do(s, a), who, x)
  {
    if IsAnalysis(a) {
      var w := AnalysisPushes(s, a);
      hide WF, Do;
    } else {
      hide WF, Do, Wants, Enabled;
      if ByParent(a) { CallWants(s, a, who, x); }
      else if a.Fire? || a.Swap? { HandWants(s, a, who, x); }
      else { AgentWants(s, a, who, x); }
    }
  }

  lemma CoreDeques(s: State, a: Step)
    requires WF(s) && Enabled(s, a) && IsCore(a)
    ensures Do(s, a).deques == s.deques && |Do(s, a).tasks| == |s.tasks| + if a.Spawn? then 1 else 0
  {
    if IsAnalysis(a) {
      var w := AnalysisPushes(s, a);
    } else if a.Fire? || a.Swap? {
      assert TaskOk(s.tasks[a.k], a.k, |s.tasks|);
    }
    hide WF;
  }

  lemma CoreServes(c: Full, a: Step, seen: map<Server, seq<nat>>)
    requires ServesOk(c) && WF(c.core) && Enabled(c.core, a) && IsCore(a)
    ensures ServesOk(c.(core := Do(c.core, a), seen := seen))
  {
    var c' := c.(core := Do(c.core, a), seen := seen);
    hide WF, Do, Enabled, Wants;
    forall d | 0 <= d < |c.qs| && InEnqueue(c.qs[d]) ensures Wants(c'.core, c.serves[d].value, c.qs[d].owner.x) {
      CoreWants(c.core, a, c.serves[d].value, c.qs[d].owner.x);
    }
  }

  lemma CoreAbs(c: Full, a: Step, seen: map<Server, seq<nat>>)
    requires Good(c) && WF(c.core) && IsCore(a) && Enabled(c.core, a)
    ensures var c' := c.(core := Do(c.core, a), seen := seen);
      && HandsIn(c.qs, |c'.core.tasks|) && c'.core.deques == []
      && Enabled(Abs(c), a) && Abs(c') == Do(Abs(c), a)
  {
    var n := |c.core.tasks|;
    hide WF, CountInv, Do, Enabled, Lift, AllHands, HandsBy, ServesOk;
    LiftStep(c.core, AllHands(c.qs, n), Deques(c.qs), a);
    CoreDeques(c.core, a);
    NewHands(c.qs, n);
  }

  /** The acts that touch no deque: those that are a step of DepMachine, and accesses to
      a stack after which the thread tries again. */
  predicate OnCore(act: Act) { act.Core? || act.ReadTop? || act.SwapTop? }

  lemma OpIsCore(s: State, who: Server)
    requires OpReady(s, who)
    ensures IsCore(OpOf(s, who).value.a) && !OpOf(s, who).value.a.Spawn? && !OpOf(s, who).value.a.End?
  {
    hide PushTarget;
  }

  lemma OnCoreIs(c: Full, act: Act)
    requires CanAct(c, act) && OnCore(act)
    ensures AbsStep(c, act).Some? ==> WF(c.core) && Enabled(c.core, AbsStep(c, act).value) && IsCore(AbsStep(c, act).value)
    ensures AbsStep(c, act) == None ==> DoAct(c, act) == c.(seen := DoAct(c, act).seen)
    ensures AbsStep(c, act).Some? ==>
      DoAct(c, act) == c.(core := Do(c.core, AbsStep(c, act).value), seen := DoAct(c, act).seen)
  {
    if !act.Core? { OpIsCore(c.core, act.who); }
    hide WF, Do, Enabled, OpOf;
  }

  lemma CoreSim(c: Full, act: Act)
    requires Good(c) && CanAct(c, act) && OnCore(act)
    ensures Simulates(c, act)
  {
    OnCoreIs(c, act);
    hide WF, CountInv, Do, Enabled, Abs, HandsIn, ServesOk, QsOk, CanAct, DoAct, AbsStep;
    var a := AbsStep(c, act);
    var seen := DoAct(c, act).seen;
    if a.Some? {
      CoreAbs(c, a.value, seen);
      CoreServes(c, a.value, seen);
      StepKeeps(Abs(c), a.value);
    } else {
      SeenOnly(c, seen);
    }
  }

  lemma SeenOnly(c: Full, seen: map<Server, seq<nat>>)
    requires Good(c)
    ensures Good(c.(seen := seen)) && Abs(c.(seen := seen)) == Abs(c)
  {
    hide WF, CountInv, HandsIn, QsOk, Wants;
  }

  // ---- steps inside a deque -----------------------------------------------------------

  /** What one access to deque d does to the deques and to the tasks in hand. */
  lemma QueueStep(c: Full, d: nat, b: Q.Step)
    requires QsOk(c.qs) && d < |c.qs| && Q.Enabled(c.qs[d], b) && R.Fair(c.qs[d], b)
    ensures |c.qs[d].entries| == Q.SIZE
    ensures var qs' := c.qs[d := Q.Do(c.qs[d], b)];
      && QsOk(qs') && Q.Abstract(R.Contents(c.qs[d]), Q.EventOf(c.qs[d], b), R.Contents(qs'[d]))
      && Deques(qs') == Deques(c.qs)[d := R.Contents(qs'[d])]
  {
    var q := c.qs[d];
    assert Q.Inv(q);
    hide QsOk, Q.Do, Q.Enabled, R.Fair, Q.EventOf, Q.Abstract, Q.Content, Q.Inv;
    Q.InvParts(q);
    R.FairRefines(q, b);
    Refined(q, b);
    QsKept(c.qs, d, Q.Do(q, b));
  }

  lemma Refined(q: Q.State, b: Q.Step)
    requires Q.Refines(q, b)
    ensures |q.entries| == Q.SIZE && Q.Inv(Q.Do(q, b))
    ensures Q.Abstract(R.Contents(q), Q.EventOf(q, b), R.Contents(Q.Do(q, b)))
  {
    Q.InvParts(q);
    Q.InvParts(Q.Do(q, b));
    hide Q.Inv, Q.Do, Q.Abstract, Q.Content;
  }

  lemma QsKept(qs: seq<Q.State>, d: nat, q: Q.State)
    requires QsOk(qs) && d < |qs| && Q.Inv(q)
    ensures QsOk(qs[d := q]) && Deques(qs[d := q]) == Deques(qs)[d := R.Contents(q)]
  {
    hide Q.Inv, R.Contents;
  }

  /** The hands after one access: one more for a task taken, one less for one handed over. */
  lemma HandsStep(qs: seq<Q.State>, d: nat, b: Q.Step, n: nat, k: nat)
    requires d < |qs| && Q.Enabled(qs[d], b) && |qs[d].entries| == Q.SIZE && k < n
    ensures var e := Q.EventOf(qs[d], b); var h' := AllHands(qs[d := Q.Do(qs[d], b)], n);
      h'[k] + R.Given(qs[d], b, k) == AllHands(qs, n)[k] + R.Takes(e, k)
  {
    R.StepHands(qs[d], b, k);
    HandsUpdate(qs, d, Q.Do(qs[d], b), k);
    hide Q.Do, Q.EventOf, R.Given, R.Takes, R.InHands;
  }

  lemma GivenOnce(q: Q.State, b: Q.Step, x: nat)
    requires Q.Enabled(q, b) && |q.entries| == Q.SIZE
    ensures R.Given(q, b, x) == if Given(q, b) == Q.Some(x) then 1 else 0
    ensures Given(q, b).Some? ==> R.InHands(q, Given(q, b).value) > 0
    ensures Given(q, b).Some? ==> Q.EventOf(q, b) == Q.Quiet
  {
    if Given(q, b).Some? { R.StepHands(q, b, Given(q, b).value); }
    hide Bytes.Slot, Bytes.Next, R.InHands;
  }

  /** Whether the owner is in enqueue, and with what, changes at its ends only. */
  lemma OwnerGoesOn(q: Q.State, b: Q.Step)
    requires Q.Enabled(q, b) && |q.entries| == Q.SIZE && !b.Enqueue? && !b.Store?
    requires !(b.Check? && Q.LooksFull(q.bottom, q.top))
    ensures InEnqueue(Q.Do(q, b)) == InEnqueue(q) && (InEnqueue(q) ==> Q.Do(q, b).owner.x == q.owner.x)
  {
    hide Bytes.Slot, Bytes.Next, Bytes.Prev;
  }

  lemma OwnerEnds(q: Q.State, b: Q.Step)
    requires Q.Enabled(q, b) && |q.entries| == Q.SIZE && (b.Store? || (b.Check? && Q.LooksFull(q.bottom, q.top)))
    ensures InEnqueue(q) && !InEnqueue(Q.Do(q, b)) && Given(q, b) == Q.None
    ensures Q.EventOf(q, b) == if b.Store? then Q.Append(q.owner.x) else Q.Quiet
  {
    hide Bytes.Slot, Bytes.Next, Bytes.Prev, Q.LooksFull;
  }

  /** An access inside a call: nobody begins or ends to be served. */
  predicate Inside(q: Q.State, b: Q.Step) {
    !b.Enqueue? && !b.Store? && !(b.Check? && Q.LooksFull(q.bottom, q.top))
  }

  lemma ServesInside(c: Full, d: nat, b: Q.Step, core: State)
    requires ServesOk(c) && d < |c.qs| && Q.Enabled(c.qs[d], b) && |c.qs[d].entries| == Q.SIZE && Inside(c.qs[d], b)
    requires forall who, x: nat :: Wants(c.core, who, x) ==> Wants(core, who, x)
    ensures ServesOk(Full(core, c.qs[d := Q.Do(c.qs[d], b)], c.serves, c.seen))
  {
    OwnerGoesOn(c.qs[d], b);
    hide Q.Do, Wants, Q.Enabled;
  }

  lemma StartsWants(s: State, x: nat)
    ensures forall who, y: nat :: Wants(s, who, y) ==> Wants(Starts(s, x), who, y)
  {
  }

  /** What the hands hold are tasks, and so does the deque they came from. */
  lemma TakenIsTask(c: Full, d: nat, b: Q.Step, x: nat)
    requires Good(c) && d < |c.qs| && Q.Enabled(c.qs[d], b) && R.Fair(c.qs[d], b)
    requires |c.qs[d].entries| == Q.SIZE && (Q.EventOf(c.qs[d], b) == Q.TakeLast(x) || Q.EventOf(c.qs[d], b) == Q.TakeFirst(x))
    ensures x < |c.core.tasks|
    ensures var q := R.Contents(c.qs[d]);
      q != [] && x == if Q.EventOf(c.qs[d], b).TakeLast? then q[|q| - 1] else q[0]
  {
    QueueStep(c, d, b);
    hide CountInv, Q.Do, Q.EventOf, R.Contents, R.Fair, Q.Enabled;
    var q := Abs(c).deques[d];
    assert q == R.Contents(c.qs[d]) && Within(q, 0, |c.core.tasks|);
    var last := Q.EventOf(c.qs[d], b).TakeLast?;
    assert x == q[if last then |q| - 1 else 0];
  }

  lemma HandsInStep(c: Full, d: nat, b: Q.Step)
    requires Good(c) && d < |c.qs| && Q.Enabled(c.qs[d], b) && R.Fair(c.qs[d], b) && |c.qs[d].entries| == Q.SIZE
    ensures HandsIn(c.qs[d := Q.Do(c.qs[d], b)], |c.core.tasks|)
  {
    var q, n := c.qs[d], |c.core.tasks|;
    var qs' := c.qs[d := Q.Do(q, b)];
    hide WF, CountInv, Abs, Q.Do, Q.EventOf, R.Fair, Q.Enabled, R.InHands, QsOk, ServesOk;
    forall e, x: nat | 0 <= e < |qs'| && R.InHands(qs'[e], x) > 0 ensures x < n {
      if e == d {
        R.StepHands(q, b, x);
        if Q.EventOf(q, b) == Q.TakeLast(x) || Q.EventOf(q, b) == Q.TakeFirst(x) { TakenIsTask(c, d, b, x); }
      }
    }
  }

  // ---- the steps of a deque, one kind after the other ---------------------------------

  ghost predicate OnOk(c: Full, d: nat, b: Q.Step) {
    && Good(c) && CanAct(c, On(d, b)) && d < |c.qs| && Q.Enabled(c.qs[d], b) && |c.qs[d].entries| == Q.SIZE
    && R.Fair(c.qs[d], b)
  }

  lemma OnParts(c: Full, d: nat, b: Q.Step)
    requires OnOk(c, d, b)
    ensures QsOk(c.qs) && HandsIn(c.qs, |c.core.tasks|) && d < |c.qs| == |c.serves| && Q.Enabled(c.qs[d], b) && |c.qs[d].entries| == Q.SIZE
    ensures Good(c) && R.Fair(c.qs[d], b) && (b.Check? || b.Store? ==> c.serves[d].Some?) && WF(Abs(c))
  {
    hide WF, CountInv, Q.Enabled, R.Fair, Abs, HandsIn;
  }

  lemma HandsAfter(c: Full, d: nat, b: Q.Step)
    requires OnOk(c, d, b)
    ensures var q, n := c.qs[d], |c.core.tasks|;
      forall k: nat :: k < n ==> AllHands(c.qs[d := Q.Do(q, b)], n)[k] + (if Given(q, b) == Q.Some(k) then 1 else 0)
                                 == AllHands(c.qs, n)[k] + R.Takes(Q.EventOf(q, b), k)
  {
    OnParts(c, d, b);
    var q, n := c.qs[d], |c.core.tasks|;
    hide OnOk, Q.Do, Q.EventOf, Given, R.Contents, AllHands, QsOk, HandsIn, R.Takes, Q.Enabled, R.Fair, Good, WF;
    forall k: nat | k < n
      ensures AllHands(c.qs[d := Q.Do(q, b)], n)[k] + (if Given(q, b) == Q.Some(k) then 1 else 0)
           == AllHands(c.qs, n)[k] + R.Takes(Q.EventOf(q, b), k)
    {
      HandsStep(c.qs, d, b, n, k);
      GivenOnce(q, b, k);
    }
  }

  lemma SameDeques(qs: seq<Q.State>, d: nat)
    requires QsOk(qs) && d < |qs|
    ensures Deques(qs)[d := R.Contents(qs[d])] == Deques(qs)
  {
  }

  /** Abs, piece by piece. */
  lemma AbsIs(core: State, qs: seq<Q.State>, serves: seq<Option<Server>>, seen: map<Server, seq<nat>>, h: seq<nat>, dq: seq<seq<nat>>)
    requires QsOk(qs) && h == AllHands(qs, |core.tasks|) && dq == Deques(qs)
    ensures Abs(Full(core, qs, serves, seen)) == Lift(core, h, dq)
  {
    hide AllHands, Deques, QsOk, Lift;
  }

  lemma InsideIs(c: Full, d: nat, b: Q.Step)
    requires OnOk(c, d, b) && Inside(c.qs[d], b)
    ensures DoOn(c, d, b) ==
      Full(if Given(c.qs[d], b).Some? then Starts(c.core, Given(c.qs[d], b).value) else c.core, c.qs[d := Q.Do(c.qs[d], b)], c.serves, c.seen)
  {
    OnParts(c, d, b);
    hide WF, CountInv, Good, Q.Do, Given, Starts, Q.LooksFull, R.Fair;
  }

  lemma HandedOver(ts: seq<Task>, h: seq<nat>, h': seq<nat>, x: nat)
    requires |h| == |ts| == |h'| && x < |ts|
    requires forall k: nat :: k < |ts| ==> h'[k] + (if k == x then 1 else 0) == h[k]
    ensures Lifted(ts[x := ts[x].(runs := ts[x].runs + 1)], h') == Lifted(ts, h)
  {
  }

  lemma TakenInHand(ts: seq<Task>, h: seq<nat>, h': seq<nat>, x: nat)
    requires |h| == |ts| == |h'| && x < |ts|
    requires forall k: nat :: k < |ts| ==> h'[k] == h[k] + (if k == x then 1 else 0)
    ensures Lifted(ts, h)[x := Lifted(ts, h)[x].(runs := Lifted(ts, h)[x].runs + 1)] == Lifted(ts, h')
  {
  }

  /** Accesses that nobody sees: nothing is taken, put or handed over. */
  lemma SameHands(h: seq<nat>, h': seq<nat>)
    requires |h'| == |h| && forall k :: 0 <= k < |h| ==> h'[k] == h[k]
    ensures h' == h
  {
  }

  lemma SilentAbs(c: Full, d: nat, b: Q.Step)
    requires OnOk(c, d, b) && Inside(c.qs[d], b) && Q.EventOf(c.qs[d], b) == Q.Quiet && Given(c.qs[d], b) == Q.None
    ensures QsOk(DoOn(c, d, b).qs) && Abs(DoOn(c, d, b)) == Abs(c)
  {
    OnParts(c, d, b);
    hide *;
    var n, qs' := |c.core.tasks|, c.qs[d := Q.Do(c.qs[d], b)];
    QueueStep(c, d, b);
    QuietTakes(Q.EventOf(c.qs[d], b));
    HandsAfter(c, d, b);
    SameHands(AllHands(c.qs, n), AllHands(qs', n));
    SameDeques(c.qs, d);
    AppendedTo(R.Contents(c.qs[d]), Q.EventOf(c.qs[d], b), R.Contents(qs'[d]), 0);
    InsideIs(c, d, b);
    AbsIs(c.core, c.qs, c.serves, c.seen, AllHands(c.qs, n), Deques(c.qs));
    AbsIs(c.core, qs', c.serves, c.seen, AllHands(c.qs, n), Deques(c.qs));
  }

  lemma GivenTask(c: Full, d: nat, b: Q.Step)
    requires OnOk(c, d, b) && Given(c.qs[d], b).Some?
    ensures Given(c.qs[d], b).value < |c.core.tasks| && Inside(c.qs[d], b) && Q.EventOf(c.qs[d], b) == Q.Quiet
  {
    OnParts(c, d, b);
    GivenOnce(c.qs[d], b, Given(c.qs[d], b).value);
    hide WF, CountInv, Good, Q.LooksFull, Q.EventOf, R.InHands, OnOk, R.Fair;
  }

  lemma HandsGiven(c: Full, d: nat, b: Q.Step, x: nat)
    requires OnOk(c, d, b) && Given(c.qs[d], b) == Q.Some(x) && (forall k: nat :: R.Takes(Q.EventOf(c.qs[d], b), k) == 0)
    ensures forall k: nat :: k < |c.core.tasks| ==>
      AllHands(c.qs[d := Q.Do(c.qs[d], b)], |c.core.tasks|)[k] + (if k == x then 1 else 0) == AllHands(c.qs, |c.core.tasks|)[k]
  {
    HandsAfter(c, d, b);
    hide *;
  }

  lemma QuietTakes(e: Q.Event)
    requires e == Q.Quiet
    ensures forall k: nat :: R.Takes(e, k) == 0
  {
  }

  lemma StartedInHand(core: State, h: seq<nat>, h': seq<nat>, dq: seq<seq<nat>>, x: nat)
    requires |h| == |core.tasks| == |h'| && x < |core.tasks|
    requires forall k: nat :: k < |core.tasks| ==> h'[k] + (if k == x then 1 else 0) == h[k]
    ensures |Starts(core, x).tasks| == |h'| && Lift(Starts(core, x), h', dq) == Lift(core, h, dq)
  {
    HandedOver(core.tasks, h, h', x);
    hide Lifted;
  }

  /** A call hands its task over, and the body starts: it was counted already. */
  lemma GivenAbs(c: Full, d: nat, b: Q.Step)
    requires OnOk(c, d, b) && Given(c.qs[d], b).Some?
    ensures QsOk(DoOn(c, d, b).qs) && Abs(DoOn(c, d, b)) == Abs(c)
  {
    OnParts(c, d, b);
    GivenTask(c, d, b);
    hide *;
    var n, x, qs' := |c.core.tasks|, Given(c.qs[d], b).value, c.qs[d := Q.Do(c.qs[d], b)];
    var h, h', dq := AllHands(c.qs, n), AllHands(qs', n), Deques(c.qs);
    QueueStep(c, d, b);
    QuietTakes(Q.EventOf(c.qs[d], b));
    HandsGiven(c, d, b, x);
    SameDeques(c.qs, d);
    AppendedTo(R.Contents(c.qs[d]), Q.EventOf(c.qs[d], b), R.Contents(qs'[d]), 0);
    InsideIs(c, d, b);
    StartedInHand(c.core, h, h', dq, x);
    AbsIs(c.core, c.qs, c.serves, c.seen, h, dq);
    AbsIs(Starts(c.core, x), qs', c.serves, c.seen, h', dq);
  }

  lemma TakesGiveNothing(q: Q.State, b: Q.Step, x: nat)
    requires Q.Enabled(q, b) && |q.entries| == Q.SIZE && (Q.EventOf(q, b) == Q.TakeLast(x) || Q.EventOf(q, b) == Q.TakeFirst(x))
    ensures Given(q, b) == Q.None && Inside(q, b)
    ensures forall k: nat :: R.Takes(Q.EventOf(q, b), k) == if k == x then 1 else 0
  {
    hide Q.OwnerLook;
  }

  lemma StartIs(core: State, h: seq<nat>, h': seq<nat>, dq: seq<seq<nat>>, d: nat, x: nat, rest: seq<nat>)
    requires |h| == |core.tasks| == |h'| && x < |core.tasks| && d < |dq|
    requires forall k: nat :: k < |core.tasks| ==> h'[k] == h[k] + (if k == x then 1 else 0)
    ensures DepMachine.Start(Lift(core, h, dq), x, d, rest) == Lift(core, h', dq[d := rest])
  {
    TakenInHand(core.tasks, h, h', x);
    hide Lifted;
  }

  lemma TakenOff(q: seq<nat>, e: Q.Event, rest: seq<nat>, x: nat)
    requires Q.Abstract(q, e, rest)
    ensures e == Q.TakeLast(x) ==> q == rest + [x]
    ensures e == Q.TakeFirst(x) ==> q == [x] + rest
  {
  }

  lemma HandsTaken(c: Full, d: nat, b: Q.Step, x: nat)
    requires OnOk(c, d, b) && Given(c.qs[d], b) == Q.None
    requires forall k: nat :: R.Takes(Q.EventOf(c.qs[d], b), k) == if k == x then 1 else 0
    ensures forall k: nat :: k < |c.core.tasks| ==>
      AllHands(c.qs[d := Q.Do(c.qs[d], b)], |c.core.tasks|)[k] == AllHands(c.qs, |c.core.tasks|)[k] + (if k == x then 1 else 0)
  {
    HandsAfter(c, d, b);
    hide *;
  }

  /** A task is taken off the deque. */
  lemma TakenAbs(c: Full, d: nat, b: Q.Step, x: nat, a: Step)
    requires OnOk(c, d, b)
    requires (Q.EventOf(c.qs[d], b) == Q.TakeLast(x) && a == PopFront(d)) || (Q.EventOf(c.qs[d], b) == Q.TakeFirst(x) && a == Steal(d))
    ensures QsOk(DoOn(c, d, b).qs) && Enabled(Abs(c), a) && Abs(DoOn(c, d, b)) == Do(Abs(c), a)
  {
    OnParts(c, d, b);
    hide *;
    var n, qs' := |c.core.tasks|, c.qs[d := Q.Do(c.qs[d], b)];
    var h, h', rest := AllHands(c.qs, n), AllHands(qs', n), R.Contents(qs'[d]);
    QueueStep(c, d, b);
    TakenIsTask(c, d, b, x);
    TakesGiveNothing(c.qs[d], b, x);
    HandsTaken(c, d, b, x);
    InsideIs(c, d, b);
    AbsIs(c.core, c.qs, c.serves, c.seen, h, Deques(c.qs));
    AbsIs(c.core, qs', c.serves, c.seen, h', Deques(qs'));
    DequeAt(c.qs, d);
    TakenOff(R.Contents(c.qs[d]), Q.EventOf(c.qs[d], b), rest, x);
    StartIs(c.core, h, h', Deques(c.qs), d, x, rest);
    LiftParts(c.core, h, Deques(c.qs));
    TakeStep(Abs(c), d, x, rest, a);
  }

  lemma LiftParts(core: State, h: seq<nat>, dq: seq<seq<nat>>)
    requires |h| == |core.tasks|
    ensures |Lift(core, h, dq).tasks| == |core.tasks| && Lift(core, h, dq).deques == dq && Lift(core, h, dq).pc == core.pc
    ensures forall k :: 0 <= k < |core.tasks| ==> Lift(core, h, dq).tasks[k].hand == core.tasks[k].hand
  {
  }

  lemma DequeAt(qs: seq<Q.State>, d: nat)
    requires QsOk(qs) && d < |qs|
    ensures Deques(qs)[d] == R.Contents(qs[d])
  {
    hide R.Contents;
  }

  lemma TakeStep(s: State, d: nat, x: nat, rest: seq<nat>, a: Step)
    requires WF(s) && d < |s.deques| && x < |s.tasks|
    requires (a == PopFront(d) && s.deques[d] == rest + [x]) || (a == Steal(d) && s.deques[d] == [x] + rest)
    ensures Enabled(s, a) && Do(s, a) == DepMachine.Start(s, x, d, rest)
  {
    var q := s.deques[d];
    assert a.PopFront? ==> q[..|q| - 1] == rest && q[|q| - 1] == x;
    assert a.Steal? ==> q[1..] == rest && q[0] == x;
    hide WF;
  }

  function PutBy(who: Server, d: nat): Step {
    match who
    case Parent => ParentPut(d)
    case Agent(k) => Enqueue(k, d)
  }

  lemma PutStep(s: State, who: Server, d: nat, x: nat)
    requires WF(s) && Wants(s, who, x) && d < |s.deques|
    ensures x < |s.tasks| == |Served(s, who).tasks| && d < |Served(s, who).deques|
    ensures Enabled(s, PutBy(who, d)) && Do(s, PutBy(who, d)) == Deliver(Served(s, who), x, d)
  {
    if who.Agent? { assert TaskOk(s.tasks[who.k], who.k, |s.tasks|); }
    hide WF, Deliver;
  }

  lemma LiftServed(core: State, h: seq<nat>, dq: seq<seq<nat>>, who: Server, x: nat)
    requires |h| == |core.tasks| && Wants(core, who, x)
    ensures Wants(Lift(core, h, dq), who, x) && |Served(core, who).tasks| == |h|
    ensures Served(Lift(core, h, dq), who) == Lift(Served(core, who), h, dq)
  {
    if who.Agent? { LiftedUpdate(core.tasks, h, who.k, core.tasks[who.k].(hand := Empty)); }
    hide Lifted;
  }

  lemma LiftDeliver(core: State, h: seq<nat>, dq: seq<seq<nat>>, x: nat, d: nat)
    requires |h| == |core.tasks| && x < |core.tasks| && d < |dq|
    ensures |Starts(core, x).tasks| == |h|
    ensures Deliver(Lift(core, h, dq), x, d) ==
      if |dq[d]| < CAPACITY then Lift(core, h, dq[d := dq[d] + [x]]) else Lift(Starts(core, x), h, dq)
  {
    LiftedUpdate(core.tasks, h, x, core.tasks[x].(runs := core.tasks[x].runs + 1));
    hide Lifted;
  }

  lemma NoHandsChange(c: Full, d: nat, b: Q.Step)
    requires OnOk(c, d, b) && Given(c.qs[d], b) == Q.None && (forall k: nat :: R.Takes(Q.EventOf(c.qs[d], b), k) == 0)
    ensures AllHands(c.qs[d := Q.Do(c.qs[d], b)], |c.core.tasks|) == AllHands(c.qs, |c.core.tasks|)
  {
    HandsAfter(c, d, b);
    hide *;
    var h, h' := AllHands(c.qs, |c.core.tasks|), AllHands(c.qs[d := Q.Do(c.qs[d], b)], |c.core.tasks|);
    assert forall k: nat :: k < |c.core.tasks| ==> h'[k] == h[k];
  }

  /** What the end of enqueue finds: whom it serves, with what, and how full the deque is. */
  lemma EndFacts(c: Full, d: nat, b: Q.Step)
    requires OnOk(c, d, b) && !Inside(c.qs[d], b)
    ensures Given(c.qs[d], b) == Q.None && forall k: nat :: R.Takes(Q.EventOf(c.qs[d], b), k) == 0
    ensures d < |c.serves| && c.serves[d].Some? && Wants(c.core, c.serves[d].value, c.qs[d].owner.x)
    ensures b.Store? ==> Q.EventOf(c.qs[d], b) == Q.Append(c.qs[d].owner.x)
    ensures b.Check? ==> Q.EventOf(c.qs[d], b) == Q.Quiet && |R.Contents(c.qs[d])| == CAPACITY
    ensures b.Check? || b.Store?
  {
    OnParts(c, d, b);
    assert ServesOk(c) && Q.Inv(c.qs[d]);
    hide Good, OnOk, WF, R.Fair, QsOk, HandsIn, Q.OwnerOk, Q.ThiefOk, Wants;
    OwnerEnds(c.qs[d], b);
    if b.Check? {
      Q.InvParts(c.qs[d]);
      Q.FullTest(c.qs[d]);
    }
  }

  lemma EndIs(c: Full, d: nat, b: Q.Step)
    requires OnOk(c, d, b) && !Inside(c.qs[d], b) && d < |c.serves| && c.serves[d].Some?
    ensures var core1 := Served(c.core, c.serves[d].value); var qs' := c.qs[d := Q.Do(c.qs[d], b)];
      DoOn(c, d, b) == Full(if b.Store? then core1 else Starts(core1, c.qs[d].owner.x), qs', c.serves[d := None], c.seen)
  {
    OnParts(c, d, b);
    hide WF, CountInv, Good, Q.Do, Given, Starts, Served, Q.LooksFull, R.Fair;
  }

  lemma AppendedTo(q: seq<nat>, e: Q.Event, q': seq<nat>, x: nat)
    requires Q.Abstract(q, e, q')
    ensures e == Q.Append(x) ==> q' == q + [x] && |q| < CAPACITY
    ensures e == Q.Quiet ==> q' == q
  {
  }

  /** The end of enqueue: the task is stored, or it is executed inline. */
  lemma EndAbs(c: Full, d: nat, b: Q.Step)
    requires OnOk(c, d, b) && !Inside(c.qs[d], b)
    ensures d < |c.serves| && c.serves[d].Some?
    ensures QsOk(DoOn(c, d, b).qs)
    ensures var a := PutBy(c.serves[d].value, d); Enabled(Abs(c), a) && Abs(DoOn(c, d, b)) == Do(Abs(c), a)
  {
    OnParts(c, d, b);
    EndFacts(c, d, b);
    hide *;
    var who, x, n, qs' := c.serves[d].value, c.qs[d].owner.x, |c.core.tasks|, c.qs[d := Q.Do(c.qs[d], b)];
    var h, dq, core1 := AllHands(c.qs, n), Deques(c.qs), Served(c.core, who);
    QueueStep(c, d, b);
    NoHandsChange(c, d, b);
    EndIs(c, d, b);
    AbsIs(c.core, c.qs, c.serves, c.seen, h, dq);
    DequeAt(c.qs, d);
    SameDeques(c.qs, d);
    AppendedTo(R.Contents(c.qs[d]), Q.EventOf(c.qs[d], b), R.Contents(qs'[d]), x);
    LiftParts(c.core, h, dq);
    LiftServed(c.core, h, dq, who, x);
    PutStep(Abs(c), who, d, x);
    LiftDeliver(core1, h, dq, x, d);
    AbsIs(if b.Store? then core1 else Starts(core1, x), qs', c.serves[d := None], c.seen, h, Deques(qs'));
  }

  // ---- every step ---------------------------------------------------------------------

  lemma ServedWants(s: State, who: Server, other: Server, x: nat)
    requires Wants(s, other, x) && other != who
    ensures Wants(Served(s, who), other, x)
  {
  }

  lemma ServesEnd(c: Full, d: nat, b: Q.Step)
    requires OnOk(c, d, b) && !Inside(c.qs[d], b)
    ensures ServesOk(DoOn(c, d, b))
  {
    OnParts(c, d, b);
    EndFacts(c, d, b);
    EndIs(c, d, b);
    assert ServesOk(c);
    OwnerEnds(c.qs[d], b);
    var core1, x := Served(c.core, c.serves[d].value), c.qs[d].owner.x;
    forall who, y: nat | Wants(c.core, who, y) && who != c.serves[d].value ensures Wants(core1, who, y) && Wants(Starts(core1, x), who, y) {
      ServedWants(c.core, c.serves[d].value, who, y);
      StartsWants(core1, x);
    }
    hide OnOk, Good, DoOn, Q.Do, Q.Enabled, R.Fair, Wants, Served, Starts, WF, HandsIn, QsOk, Inside;
  }

  lemma OnServes(c: Full, d: nat, b: Q.Step)
    requires OnOk(c, d, b)
    ensures ServesOk(DoOn(c, d, b))
  {
    OnParts(c, d, b);
    if Inside(c.qs[d], b) {
      InsideIs(c, d, b);
      assert ServesOk(c);
      StartsWants(c.core, if Given(c.qs[d], b).Some? then Given(c.qs[d], b).value else 0);
      hide OnOk, Good, DoOn, Q.Do, Q.Enabled, R.Fair, Wants, Starts, WF, HandsIn, QsOk, Inside, ServesOk;
      ServesInside(c, d, b, DoOn(c, d, b).core);
    } else {
      ServesEnd(c, d, b);
    }
  }

  lemma OnCoreRests(c: Full, d: nat, b: Q.Step)
    requires OnOk(c, d, b)
    ensures c.core.deques == []
  {
    hide WF, CountInv, Q.Enabled, R.Fair, HandsIn;
  }

  lemma OnTasks(c: Full, d: nat, b: Q.Step)
    requires CanAct(c, On(d, b)) && c.core.deques == []
    ensures DoOn(c, d, b).qs == c.qs[d := Q.Do(c.qs[d], b)] && DoOn(c, d, b).core.deques == []
    ensures |DoOn(c, d, b).core.tasks| == |c.core.tasks|
  {
    hide Q.Do, Q.LooksFull, Given, WF, Do;
  }

  lemma OnRest(c: Full, d: nat, b: Q.Step)
    requires OnOk(c, d, b)
    ensures DoOn(c, d, b).qs == c.qs[d := Q.Do(c.qs[d], b)] && DoOn(c, d, b).core.deques == []
    ensures |DoOn(c, d, b).core.tasks| == |c.core.tasks| && HandsIn(DoOn(c, d, b).qs, |c.core.tasks|)
  {
    OnParts(c, d, b);
    HandsInStep(c, d, b);
    OnCoreRests(c, d, b);
    hide *;
    OnTasks(c, d, b);
  }

  /** The step of DepMachine that an access stands for. */
  lemma OnStepIs(c: Full, d: nat, b: Q.Step)
    requires OnOk(c, d, b)
    ensures AbsStep(c, On(d, b)) ==
      if !Inside(c.qs[d], b) then (if c.serves[d].Some? then Some(PutBy(c.serves[d].value, d)) else None)
      else match Q.EventOf(c.qs[d], b)
           case TakeLast(_) => Some(PopFront(d))
           case TakeFirst(_) => Some(Steal(d))
           case _ => None
  {
    OnParts(c, d, b);
    assert !b.Enqueue? by { NotEnqueue(c, d, b); }
    hide WF, CountInv, Good, R.Fair, Q.LooksFull, Q.EventOf, Q.Enabled;
  }

  lemma NotEnqueue(c: Full, d: nat, b: Q.Step)
    requires OnOk(c, d, b)
    ensures !b.Enqueue?
  {
    hide Good, Q.Enabled, R.Fair;
  }

  lemma OnAbs(c: Full, d: nat, b: Q.Step)
    requires OnOk(c, d, b)
    ensures QsOk(DoOn(c, d, b).qs)
    ensures match AbsStep(c, On(d, b))
            case None => Abs(DoOn(c, d, b)) == Abs(c)
            case Some(a) => Enabled(Abs(c), a) && Abs(DoOn(c, d, b)) == Do(Abs(c), a)
  {
    OnParts(c, d, b);
    hide *;
    OnStepIs(c, d, b);
    var e := Q.EventOf(c.qs[d], b);
    if !Inside(c.qs[d], b) {
      EndAbs(c, d, b);
      EndFacts(c, d, b);
    } else if Given(c.qs[d], b).Some? {
      GivenTask(c, d, b);
      GivenAbs(c, d, b);
    } else {
      InsideEvents(c.qs[d], b);
      if e.TakeLast? { TakenAbs(c, d, b, e.x, PopFront(d)); }
      else if e.TakeFirst? { TakenAbs(c, d, b, e.x, Steal(d)); }
      else { SilentAbs(c, d, b); }
    }
  }

  lemma InsideEvents(q: Q.State, b: Q.Step)
    requires Q.Enabled(q, b) && |q.entries| == Q.SIZE && Inside(q, b)
    ensures !Q.EventOf(q, b).Append?
  {
  }

  lemma OnSim(c: Full, d: nat, b: Q.Step)
    requires OnOk(c, d, b)
    ensures Simulates(c, On(d, b))
  {
    OnServes(c, d, b);
    OnRest(c, d, b);
    OnAbs(c, d, b);
    var a := AbsStep(c, On(d, b));
    assert Good(c) && CanAct(c, On(d, b));
    hide OnOk, Q.Do, Q.Enabled, R.Fair, WF, HandsIn, QsOk, ServesOk, DoOn, Do, Enabled, Abs, AbsStep, CountInv;
    if a.Some? { StepKeeps(Abs(c), a.value); }
  }

  lemma BeginServes(c: Full, d: nat, who: Server)
    requires ServesOk(c) && CanAct(c, Begin(d, who))
    ensures ServesOk(DoAct(c, Begin(d, who)))
  {
    assert !InEnqueue(c.qs[d]);
    hide WF, Q.LooksFull;
  }

  lemma BeginHands(c: Full, d: nat, x: nat, n: nat)
    requires d < |c.qs| && c.qs[d].owner == Q.Resting && |c.qs[d].entries| == Q.SIZE && HandsIn(c.qs, n)
    ensures var qs' := c.qs[d := Q.Do(c.qs[d], Q.Enqueue(x))]; HandsIn(qs', n) && AllHands(qs', n) == AllHands(c.qs, n)
  {
    var b := Q.Enqueue(x);
    var q, qs' := c.qs[d], c.qs[d := Q.Do(c.qs[d], b)];
    forall k: nat ensures R.InHands(qs'[d], k) == R.InHands(q, k) { R.StepHands(q, b, k); }
    hide R.InHands, Q.Do;
    forall k: nat | k < n ensures AllHands(qs', n)[k] == AllHands(c.qs, n)[k] { HandsUpdate(c.qs, d, qs'[d], k); }
  }

  lemma BeginSim(c: Full, d: nat, who: Server)
    requires Good(c) && CanAct(c, Begin(d, who))
    ensures Simulates(c, Begin(d, who))
  {
    var b := Q.Enqueue(Wanted(c.core, who));
    BeginServes(c, d, who);
    BeginHands(c, d, Wanted(c.core, who), |c.core.tasks|);
    assert Q.Enabled(c.qs[d], b) && R.Fair(c.qs[d], b);
    assert Q.EventOf(c.qs[d], b) == Q.Quiet;
    QueueStep(c, d, b);
    SameDeques(c.qs, d);
    hide WF, CountInv, AllHands, HandsIn, ServesOk, QsOk, Deques, R.Contents, Lift, Wants, Wanted;
  }

  /** The composed machine refines DepMachine: as long as swaps are fair, each of its
      steps is one of DepMachine's, or none. */
  lemma StepSimulates(c: Full, act: Act)
    requires Good(c) && CanAct(c, act) && FairAct(c, act)
    ensures Simulates(c, act)
  {
    hide Good, Q.Do, Q.Enabled, R.Fair, WF, Do, Enabled, Simulates;
    match act
    case Core(_) => CoreSim(c, act);
    case ReadTop(_) => CoreSim(c, act);
    case SwapTop(_) => CoreSim(c, act);
    case Begin(d, who) => BeginSim(c, d, who);
    case On(d, b) =>
      assert OnOk(c, d, b);
      OnSim(c, d, b);
  }
}
