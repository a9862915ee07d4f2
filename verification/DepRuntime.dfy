/** The same code in the form it has in src/deps.c: loops that update the table, the
    elements, the stacks and the counters in place, while other threads interfere
    before every shared access.  Whatever they do, the object's history is a run of
    DepMachine, so everything proved about runs holds for it. */
module DepRuntime {
  import opened DepMachine
  import opened DepCount
  import opened DepOrder
  import opened DepProgress

  /** The thread that executes a method: the spawning one, or the one releasing task k. */
  datatype Who = Spawner | Releaser(k: nat)

  predicate Mine(who: Who, a: Step) {
    match who
    case Spawner => ByParent(a)
    case Releaser(k) =>
      a == Lock(k) || a == Pop(k) || a == Fire(k) || a == Spin(k) || a == Test(k) || a == Swap(k) || a == Retire(k)
      || (a.Enqueue? && a.k == k)
  }

  // ---- a thread's own steps --------------------------------------------------

  /** The steps of one thread, in order. */
  function Own(who: Who, steps: seq<Step>): seq<Step> {
    if steps == [] then []
    else Own(who, steps[..|steps| - 1]) + if Mine(who, steps[|steps| - 1]) then [steps[|steps| - 1]] else []
  }

  /** The history has gone on from `before` to `after`, and the thread's own part in that
      are the steps `own`. */
  ghost predicate Did(who: Who, before: seq<Step>, after: seq<Step>, own: seq<Step>) {
    before <= after && Own(who, after) == Own(who, before) + own
  }

  lemma DidNothing(who: Who, steps: seq<Step>)
    ensures Did(who, steps, steps, [])
  {
  }

  lemma DidOne(who: Who, before: seq<Step>, a: Step)
    ensures Did(who, before, before + [a], if Mine(who, a) then [a] else [])
  {
    assert (before + [a])[..|before|] == before;
  }

  lemma DidTrans(who: Who, a: seq<Step>, b: seq<Step>, c: seq<Step>, o: seq<Step>, o': seq<Step>, all: seq<Step>)
    requires Did(who, a, b, o) && Did(who, b, c, o') && all == o + o'
    ensures Did(who, a, c, all)
  {
    assert Own(who, a) + o + o' == Own(who, a) + all;
  }

  lemma DidMore(who: Who, a: seq<Step>, b: seq<Step>, o: seq<Step>, x: Step, all: seq<Step>)
    requires Did(who, a, b, o) && Mine(who, x) && all == o + [x]
    ensures Did(who, a, b + [x], all)
  {
    DidOne(who, b, x);
    DidTrans(who, a, b, b + [x], o, [x], all);
  }

  lemma DidBefore(who: Who, a: seq<Step>, b: seq<Step>, o: seq<Step>)
    requires Did(who, a, b, o)
    ensures a <= b
  {
  }

  function Times(a: Step, n: nat): seq<Step> { if n == 0 then [] else Times(a, n - 1) + [a] }

  /** What the analysis of one access consists of: one step, the visits to the readers of
      an element that is overwritten, or a join and the push after it. */
  ghost predicate OneAccess(own: seq<Step>) {
    own == [Analyse, JoinPush] || exists n :: own == [Analyse] + Times(Reader, n)
  }

  /** The analysis of n accesses, one after the other. */
  ghost predicate Analyses(own: seq<Step>, n: nat)
    decreases n
  {
    if n == 0 then own == []
    else exists k :: 0 <= k <= |own| && Analyses(own[..k], n - 1) && OneAccess(own[k..])
  }

  lemma {:induction false} AnalysesMore(own: seq<Step>, n: nat, o: seq<Step>)
    requires Analyses(own, n) && OneAccess(o)
    ensures Analyses(own + o, n + 1)
  {
    assert (own + o)[..|own|] == own && (own + o)[|own|..] == o;
    hide OneAccess;
  }

  lemma {:induction false} AnalysesThen(own: seq<Step>, n: nat, o: seq<Step>, m: nat)
    requires Analyses(own, n) && Analyses(o, m)
    ensures Analyses(own + o, n + m)
    decreases m
  {
    hide OneAccess;
    if m == 0 {
      assert own + o == own;
    } else {
      var k :| 0 <= k <= |o| && Analyses(o[..k], m - 1) && OneAccess(o[k..]);
      AnalysesThen(own, n, o[..k], m - 1);
      AnalysesMore(own + o[..k], n + m - 1, o[k..]);
      assert own + o[..k] + o[k..] == own + o;
    }
  }

  lemma JustAnalyse()
    ensures OneAccess([Analyse]) && OneAccess([Analyse, JoinPush])
  {
    assert [Analyse] + Times(Reader, 0) == [Analyse];
  }

  // ---- what the others leave alone ------------------------------------------

  ghost predicate SpawnerKeeps(s: State, s': State) {
    && s'.pc == s.pc && s'.table == s.table && s'.elems == s.elems && s'.base == s.base
    && |s'.tasks| == |s.tasks| && |s'.deques| == |s.deques|
    && forall k :: 0 <= k < |s.tasks| ==> s'.tasks[k].acc == s.tasks[k].acc
  }

  /** The part of a releasing task that its own thread owns. */
  predicate SameRelease(t: Task, t': Task) {
    && t'.hand == t.hand && t'.pending == t.pending
    && (t.status == Releasing ==> t'.status == Releasing)
    && t'.closed == t.closed && (t.closed ==> t'.notify == t.notify)
  }

  ghost predicate ReleaserKeeps(s: State, s': State, k: nat) {
    && |s.tasks| <= |s'.tasks| && |s'.deques| == |s.deques|
    && k < |s.tasks| && SameRelease(s.tasks[k], s'.tasks[k])
    && (forall x :: 0 <= x < |s.tasks| && s.tasks[x].status != Creating ==> s'.tasks[x].status != Creating)
  }

  ghost predicate Keeps(who: Who, s: State, s': State) {
    match who
    case Spawner => SpawnerKeeps(s, s')
    case Releaser(k) => ReleaserKeeps(s, s', k)
  }

  lemma RivalSpawner(s: State, a: Step)
    requires WF(s) && CountInv(s) && Enabled(s, a) && !ByParent(a)
    ensures SpawnerKeeps(s, Do(s, a))
  {
    hide WF, Enabled, Do, Grows;
    assert CreatingOk(s.tasks, s.pc);
    hide CountInv;
    QuietSteps(s, a);
    AgentPc(s, a);
    DequeCount(s, a);
  }

  predicate SameTask(s: State, s': State, k: nat) {
    && |s'.tasks| == |s.tasks| && k < |s.tasks| && SameRelease(s.tasks[k], s'.tasks[k])
    && forall x :: 0 <= x < |s.tasks| && s.tasks[x].status != Creating ==> s'.tasks[x].status != Creating
  }

  lemma FireRelease(s: State, f: nat, k: nat)
    requires f < |s.tasks| && s.tasks[f].hand.Popped? && s.tasks[f].hand.x < |s.tasks| && f != k < |s.tasks|
    ensures SameTask(s, DoFire(s, f), k)
  {
  }

  lemma SwapRelease(s: State, f: nat, k: nat)
    requires f < |s.tasks| && s.tasks[f].hand.Claim? && s.tasks[f].hand.x < |s.tasks| && f != k < |s.tasks|
    ensures SameTask(s, DoSwap(s, f), k)
  {
  }

  lemma EnqueueRelease(s: State, f: nat, d: nat, k: nat)
    requires f < |s.tasks| && s.tasks[f].hand.Put? && s.tasks[f].hand.x < |s.tasks| && f != k < |s.tasks| && d < |s.deques|
    ensures SameTask(s, DoEnqueue(s, f, d), k)
  {
  }

  lemma RivalHands(s: State, a: Step, k: nat)
    requires WF(s) && Enabled(s, a) && (a.Fire? || a.Swap? || a.Enqueue?) && a.k != k < |s.tasks|
    ensures |Do(s, a).tasks| == |s.tasks| && SameRelease(s.tasks[k], Do(s, a).tasks[k])
    ensures forall x :: 0 <= x < |s.tasks| && s.tasks[x].status != Creating ==> Do(s, a).tasks[x].status != Creating
  {
    ReleaseIs(s, a);
    hide WF, Do, DoFire, DoSwap, DoEnqueue;
    if a.Fire? { FireRelease(s, a.k, k); }
    else if a.Swap? { SwapRelease(s, a.k, k); }
    else { EnqueueRelease(s, a.k, a.d, k); }
  }

  lemma RivalOthers(s: State, a: Step, k: nat)
    requires WF(s) && Enabled(s, a) && !ByParent(a) && !a.Fire? && !a.Swap? && !a.Enqueue? && k < |s.tasks|
    requires s.tasks[k].status == Releasing && !Mine(Releaser(k), a)
    ensures |Do(s, a).tasks| == |s.tasks| && SameRelease(s.tasks[k], Do(s, a).tasks[k])
    ensures forall x :: 0 <= x < |s.tasks| && s.tasks[x].status != Creating ==> Do(s, a).tasks[x].status != Creating
  {
    if a.PopFront? || a.Steal? { assert Within(s.deques[a.d], 0, |s.tasks|); }
  }

  lemma RivalAnalysis(s: State, a: Step, k: nat)
    requires WF(s) && CountInv(s) && Enabled(s, a) && IsAnalysis(a) && k < |s.tasks| && s.tasks[k].status == Releasing
    ensures |Do(s, a).tasks| == |s.tasks| && SameRelease(s.tasks[k], Do(s, a).tasks[k])
    ensures forall x :: 0 <= x < |s.tasks| && s.tasks[x].status != Creating ==> Do(s, a).tasks[x].status != Creating
  {
    hide *;
    var w := AnalysisPushes(s, a);
    OnePushRelease(s, Do(s, a), w, k);
  }

  lemma OnePushRelease(s: State, s': State, w: nat, k: nat)
    requires AtMostOnePush(s, s', w) && k < |s.tasks|
    ensures |s'.tasks| == |s.tasks| && SameRelease(s.tasks[k], s'.tasks[k])
    ensures forall x :: 0 <= x < |s.tasks| && s.tasks[x].status != Creating ==> s'.tasks[x].status != Creating
  {
  }

  lemma RivalCall(s: State, a: Step, k: nat)
    requires WF(s) && CountInv(s) && Enabled(s, a) && ByParent(a) && !IsAnalysis(a)
    requires k < |s.tasks| && s.tasks[k].status == Releasing
    ensures |s.tasks| <= |Do(s, a).tasks| && SameRelease(s.tasks[k], Do(s, a).tasks[k])
    ensures forall x :: 0 <= x < |s.tasks| && s.tasks[x].status != Creating ==> Do(s, a).tasks[x].status != Creating
  {
    assert CreatingOk(s.tasks, s.pc);
    hide WF, CountInv, Accesses, NewElems;
    if a.Spawn? {
      SpawnedTasks(s, a.args);
      hide Do;
    } else {
      LastOnly(s, a);
      hide Do, CreatingOk, Enabled;
    }
  }

  /** The end of a call writes the newest task only, which is not being released. */
  lemma LastOnly(s: State, a: Step)
    requires WF(s) && CreatingOk(s.tasks, s.pc) && Enabled(s, a) && ByParent(a) && !IsAnalysis(a) && !a.Spawn?
    ensures |Do(s, a).tasks| == |s.tasks| > 0
    ensures forall x :: 0 <= x < |s.tasks| - 1 ==> Do(s, a).tasks[x] == s.tasks[x]
    ensures SameRelease(s.tasks[|s.tasks| - 1], Do(s, a).tasks[|s.tasks| - 1])
    ensures s.tasks[|s.tasks| - 1].status != Creating ==> Do(s, a).tasks[|s.tasks| - 1].status != Creating
  {
    hide WF;
  }

  lemma RivalAgent(s: State, a: Step, k: nat)
    requires WF(s) && CountInv(s) && Enabled(s, a) && !Mine(Releaser(k), a) && k < |s.tasks|
    requires s.tasks[k].status == Releasing
    ensures ReleaserKeeps(s, Do(s, a), k)
  {
    hide WF, CountInv, Do, Enabled, SameRelease;
    DequeCount(s, a);
    if IsAnalysis(a) { RivalAnalysis(s, a, k); }
    else if ByParent(a) { RivalCall(s, a, k); }
    else if a.Fire? || a.Swap? || a.Enqueue? { RivalHands(s, a, k); }
    else { RivalOthers(s, a, k); }
  }

  lemma RivalKeeps(who: Who, s: State, a: Step)
    requires WF(s) && CountInv(s) && Enabled(s, a) && !Mine(who, a)
    requires who.Releaser? ==> who.k < |s.tasks| && s.tasks[who.k].status == Releasing
    ensures Keeps(who, s, Do(s, a))
  {
    hide WF, CountInv, Do, Enabled, SpawnerKeeps, ReleaserKeeps;
    if who.Spawner? { RivalSpawner(s, a); } else { RivalAgent(s, a, who.k); }
  }

  lemma KeepsTrans(who: Who, s: State, s': State, s'': State)
    requires Keeps(who, s, s') && Keeps(who, s', s'')
    ensures Keeps(who, s, s'')
  {
  }

  lemma KeepsRefl(who: Who, s: State)
    requires who.Releaser? ==> who.k < |s.tasks|
    ensures Keeps(who, s, s)
  {
  }

  lemma StillReleasing(who: Who, s: State, s': State)
    requires Keeps(who, s, s') && (who.Releaser? ==> who.k < |s.tasks| && s.tasks[who.k].status == Releasing)
    ensures who.Releaser? ==> who.k < |s'.tasks| && s'.tasks[who.k].status == Releasing
  {
  }

  // ---- where an access sits in the list -------------------------------------

  lemma {:induction false} BlockAt(arg: nat, lo: int, hi: int, out: bool, d: nat)
    requires lo + d <= hi
    ensures d < |Blocks(arg, lo, hi, out)| == hi - lo + 1 && Blocks(arg, lo, hi, out)[d] == Access(arg, lo + d, out)
    decreases hi - lo
  {
    if d > 0 { BlockAt(arg, lo + 1, hi, out, d - 1); }
    else if lo < hi { BlockAt(arg, lo + 1, hi, out, 0); }
  }

  lemma {:induction false} AccessesPrefix(args: seq<Arg>, i: nat, n: nat)
    requires i <= n <= |args|
    ensures Accesses(args, i) <= Accesses(args, n)
    decreases n
  {
    hide ArgAccesses;
    if i < n { AccessesPrefix(args, i, n - 1); }
  }

  /** The d-th block of argument i. */
  lemma {:induction false} AccessAt(args: seq<Arg>, i: nat, d: nat)
    requires i < |args| && !args[i].safe && args[i].lo + d <= args[i].hi
    ensures |Accesses(args, i)| + d < |Accesses(args, |args|)|
    ensures Accesses(args, |args|)[|Accesses(args, i)| + d] == Access(i, args[i].lo + d, args[i].out)
    ensures |Accesses(args, i + 1)| == |Accesses(args, i)| + args[i].hi - args[i].lo + 1
  {
    hide *;
    AccessesPrefix(args, i + 1, |args|);
    BlockAt(i, args[i].lo, args[i].hi, args[i].out, d);
    ArgumentAt(args, i);
  }

  lemma {:induction false} ArgumentAt(args: seq<Arg>, i: nat)
    requires i < |args| && !args[i].safe
    ensures Accesses(args, i + 1) == Accesses(args, i) + Blocks(i, args[i].lo, args[i].hi, args[i].out)
  {
    hide Blocks;
  }

  lemma AnalyseIs(s: State, c: Access)
    requires WF(s) && s.pc.Scan? && s.tasks != [] && s.pc.p < |s.tasks[|s.tasks| - 1].acc|
    requires s.tasks[|s.tasks| - 1].acc[s.pc.p] == c
    ensures Enabled(s, Analyse) && CanAnalyse(s, c)
    ensures Do(s, Analyse) == if c.out then AnalyseOut(s, c) else AnalyseIn(s, c)
  {
    ScanFacts(s);
  }

  lemma ReaderIs(s: State)
    requires WF(s) && s.pc.Walk?
    ensures Enabled(s, Reader) && s.tasks != [] && Within(s.pc.rest, 0, |s.tasks|) && Do(s, Reader) == DoReader(s)
    ensures s.pc.p < |s.tasks[|s.tasks| - 1].acc|
  {
  }

  lemma AttemptShape(s: State, seen: nat, w: nat)
    requires s.tasks != [] && w < |s.tasks|
    ensures Attempt(s, seen, w) == s.(tasks := Attempt(s, seen, w).tasks)
    ensures |Attempt(s, seen, w).tasks| == |s.tasks|
    ensures Attempt(s, seen, w).tasks[|s.tasks| - 1].acc == s.tasks[|s.tasks| - 1].acc
  {
  }

  /** A push does not look at the table, the elements or the program counter. */
  lemma SameAttempt(s: State, s': State, w: nat)
    requires s.tasks != [] && w < |s.tasks| && s'.tasks == s.tasks
    ensures Attempt(s', w, w).tasks == Attempt(s, w, w).tasks && Skips(s', w, w) == Skips(s, w, w)
  {
  }

  /** The RAW branch, with and without a push. */
  lemma PushedShape(s: State, w: nat)
    requires s.tasks != [] && w < |s.tasks|
    ensures Attempt(s, w, w).tasks == if Skips(s, w, w) then s.tasks else PushOn(s, w).tasks
  {
  }

  lemma RawIs(s: State, c: Access)
    requires CanAnalyse(s, c) && !c.out && c.block in s.table && s.elems[s.table[c.block]].out
    ensures var m, mine := s.table[c.block], s.base + c.arg;
      var w := s.elems[m].owner;
      AnalyseIn(s, c) ==
        if Skips(s, w, w) then s.(table := s.table[c.block := mine], pc := Scan(s.pc.p + 1, s.pc.n))
        else s.(tasks := PushOn(s, w).tasks, table := s.table[c.block := mine], pc := Scan(s.pc.p + 1, s.pc.n + 1),
                elems := s.elems[mine := s.elems[mine].(dep := Some(m))])
  {
  }

  lemma JoinIs(s: State)
    requires WF(s) && s.pc.Join?
    ensures Enabled(s, JoinPush) && Do(s, JoinPush) == DoJoinPush(s) && s.tasks != []
    ensures var acc := s.tasks[|s.tasks| - 1].acc;
      && s.pc.p < |acc| && acc[s.pc.p].block in s.table && s.table[acc[s.pc.p].block] < |s.elems|
      && Joined(s) == s.elems[s.table[acc[s.pc.p].block]]
      && Joined(s).owner < |s.tasks|
      && (Joined(s).dep.Some? ==> Joined(s).dep.value < |s.elems| && s.elems[Joined(s).dep.value].owner < |s.tasks|)
  {
    assert ElemOk(Joined(s), s.elems, |s.tasks|);
  }

  /** An empty range of blocks adds no access. */
  lemma {:induction false} NoBlocks(args: seq<Arg>, i: nat)
    requires i < |args|
    ensures args[i].safe || args[i].hi < args[i].lo ==> Accesses(args, i + 1) == Accesses(args, i)
  {
  }

  lemma {:induction false} NoArguments(args: seq<Arg>)
    ensures Accesses(args, 0) == []
  {
  }

  lemma FinishIs(s: State)
    requires WF(s) && s.pc.Scan? && s.tasks != [] && s.pc.p == |s.tasks[|s.tasks| - 1].acc|
    ensures Enabled(s, Finish) && Do(s, Finish) == DoFinish(s)
  {
  }

  lemma ClaimIs(s: State)
    requires WF(s) && s.pc.Claiming?
    ensures Enabled(s, ParentClaim) && s.tasks != [] && Do(s, ParentClaim) == DoParentClaim(s)
  {
  }

  /** The swap of the spawning thread never loses here. */
  lemma ClaimWins(s: State)
    requires WF(s) && CountInv(s) && s.pc.Claiming? && s.tasks != []
    ensures s.tasks[|s.tasks| - 1].status == Created
  {
    hide WF, BalanceOk, HandsOk, AwaitedOk, TokensOk;
  }

  /** The steps that end a call: without pushes the swap and the enqueue, else CREATED
      after `waitfor`. */
  function PublishSteps(waitfor: nat, d: nat): seq<Step> {
    if waitfor == 0 then [Finish, ParentClaim, ParentPut(d)] else [Finish, Publication]
  }

  lemma NotCreating(s: State)
    requires CountInv(s) && s.pc == Idle
    ensures forall k :: 0 <= k < |s.tasks| ==> s.tasks[k].status != Creating
  {
    assert CreatingOk(s.tasks, s.pc);
    hide BalanceOk, HandsOk, AwaitedOk, TokensOk, PhasesOk;
  }

  lemma ReleaseIs(s: State, a: Step)
    requires WF(s) && Enabled(s, a)
    ensures a.Lock? ==> Do(s, a) == DoLock(s, a.k)
    ensures a.Pop? ==> Do(s, a) == DoPop(s, a.k)
    ensures a.Fire? ==> s.tasks[a.k].hand.x < |s.tasks| && Do(s, a) == DoFire(s, a.k)
    ensures a.Spin? ==> Do(s, a) == DoSpin(s, a.k)
    ensures a.Test? ==> s.tasks[a.k].hand.x < |s.tasks| && Do(s, a) == DoTest(s, a.k)
    ensures a.Swap? ==> s.tasks[a.k].hand.x < |s.tasks| && Do(s, a) == DoSwap(s, a.k)
    ensures a.Enqueue? ==> s.tasks[a.k].hand.x < |s.tasks| && Do(s, a) == DoEnqueue(s, a.k, a.d)
    ensures a.Retire? ==> Do(s, a) == SetTask(s, a.k, s.tasks[a.k].(status := Complete))
  {
    if a.Fire? || a.Test? || a.Swap? || a.Enqueue? { assert TaskOk(s.tasks[a.k], a.k, |s.tasks|); }
    hide WF, DoLock, DoPop, DoFire, DoSpin, DoTest, DoSwap, DoEnqueue;
  }

  lemma SwapWins(s: State, k: nat)
    requires WF(s) && CountInv(s) && k < |s.tasks| && s.tasks[k].hand.Claim?
    ensures s.tasks[k].hand.x < |s.tasks| && s.tasks[s.tasks[k].hand.x].status == Created
  {
    assert TaskOk(s.tasks[k], k, |s.tasks|);
    hide WF, CountInv;
    SwapKeeps(s, k);
  }

  /** What a releasing thread does for one entry of its stack. */
  predicate OneFired(k: nat, d: nat, own: seq<Step>) {
    own == [Pop(k), Fire(k), Spin(k), Test(k)] || own == [Pop(k), Fire(k), Spin(k), Test(k), Swap(k), Enqueue(k, d)]
  }

  /** And for n entries. */
  ghost predicate Fires(k: nat, d: nat, own: seq<Step>, n: nat)
    decreases n
  {
    if n == 0 then own == []
    else exists m :: 0 <= m <= |own| && Fires(k, d, own[..m], n - 1) && OneFired(k, d, own[m..])
  }

  lemma {:induction false} FiresMore(k: nat, d: nat, own: seq<Step>, n: nat, o: seq<Step>)
    requires Fires(k, d, own, n) && OneFired(k, d, o)
    ensures Fires(k, d, own + o, n + 1)
  {
    assert (own + o)[..|own|] == own && (own + o)[|own|..] == o;
    hide OneFired;
  }

  /** What task k has popped comes later than k. */
  lemma LaterTask(s: State, k: nat)
    requires WF(s) && k < |s.tasks|
    ensures HandTask(s.tasks[k].hand).Some? ==> k < HandTask(s.tasks[k].hand).value < |s.tasks|
    ensures s.tasks[k].pending != [] ==> k < s.tasks[k].pending[0] < |s.tasks|
  {
    assert TaskOk(s.tasks[k], k, |s.tasks|);
  }

  // ---- what the others do -----------------------------------------------------

  /** The first n steps of a burst, those that can be taken. */
  ghost function Burst(who: Who, s: State, burst: seq<Step>, n: nat): State
    requires n <= |burst|
  {
    if n == 0 then s
    else
      var s1 := Burst(who, s, burst, n - 1);
      if WF(s1) && Enabled(s1, burst[n - 1]) && !Mine(who, burst[n - 1]) then Do(s1, burst[n - 1]) else s1
  }

  /** All the bursts, one after the other. */
  ghost function Played(who: Who, s: State, bursts: seq<seq<Step>>): State
    decreases |bursts|
  {
    if bursts == [] then s else Played(who, Burst(who, s, bursts[0], |bursts[0]|), bursts[1..])
  }

  lemma {:induction false} NoSteps(who: Who, s: State, burst: seq<Step>)
    ensures Burst(who, s, burst, 0) == s
  {
  }

  lemma {:induction false} BurstStep(who: Who, s: State, burst: seq<Step>, n: nat)
    requires n < |burst|
    ensures var s1 := Burst(who, s, burst, n);
      Burst(who, s, burst, n + 1) ==
        if WF(s1) && Enabled(s1, burst[n]) && !Mine(who, burst[n]) then Do(s1, burst[n]) else s1
  {
    hide WF, Enabled, Do;
  }

  lemma {:induction false} PlayedFirst(who: Who, s: State, bursts: seq<seq<Step>>)
    ensures Played(who, s, bursts) == if bursts == [] then s else Played(who, Burst(who, s, bursts[0], |bursts[0]|), bursts[1..])
  {
    hide Burst;
  }

  // ---- the shared memory ----------------------------------------------------

  class Siblings {
    const threads: nat
    var tasks: seq<Task>           // the descriptors
    var table: map<int, nat>       // the parent's look-up table
    var elems: seq<Elem>           // Metadata_element
    var deques: seq<seq<nat>>
    var pc: Pc                     // where the spawning thread is
    var base: nat                  // first element of the newest task
    var schedule: seq<seq<Step>>   // what the other threads do, burst by burst
    ghost var trace: seq<State>
    ghost var steps: seq<Step>

    function View(): State
      reads this
    {
      State(tasks, table, elems, pc, base, deques)
    }

    /** The history is a run and ends in the present state. */
    ghost predicate Valid()
      reads this
    {
      |trace| == |steps| + 1 && IsRun(threads, trace, steps) && trace[|steps|] == View()
    }

    constructor (threads: nat, schedule: seq<seq<Step>>)
      ensures Valid() && View() == Init(threads) && this.threads == threads && this.schedule == schedule
    {
      this.threads := threads;
      this.schedule := schedule;
      tasks, table, elems, pc, base := [], map[], [], Idle, 0;
      deques := seq(threads, _ => []);
      trace := [Init(threads)];
      steps := [];
      new;
      assert deques == Init(threads).deques;
    }

    lemma Known()
      requires Valid()
      ensures WF(View()) && CountInv(View()) && |deques| == threads
    {
      hide WF, CountInv, IsRun;
      RunKeeps(threads, trace, steps, |steps|);
      ThreadsStay(threads, trace, steps, |steps|);
    }

    /** One more step of the history. */
    ghost method Record(v: State, a: Step)
      requires |trace| == |steps| + 1 && IsRun(threads, trace, steps) && trace[|steps|] == v
      requires WF(v) && Enabled(v, a) && View() == Do(v, a)
      modifies this`trace, this`steps
      ensures Valid() && steps == old(steps) + [a]
    {
      hide WF, Enabled, Do, Init;
      var v' := View();
      assert Next(v, a, v');
      forall i | 0 <= i < |steps + [a]| ensures Next((trace + [v'])[i], (steps + [a])[i], (trace + [v'])[i + 1]) {
        if i < |steps| { assert Next(trace[i], steps[i], trace[i + 1]); }
      }
      trace := trace + [v'];
      steps := steps + [a];
    }

    /** Another thread takes step a. */
    method Rival(who: Who, a: Step)
      requires Valid() && Enabled(View(), a) && !Mine(who, a)
      requires who.Releaser? ==> who.k < |tasks| && tasks[who.k].status == Releasing
      modifies this
      ensures Valid() && Did(who, old(steps), steps, []) && Keeps(who, old(View()), View())
      ensures WF(View()) && CountInv(View()) && schedule == old(schedule) && old(WF(View())) && View() == Do(old(View()), a)
      ensures who.Releaser? ==> who.k < |tasks| && tasks[who.k].status == Releasing
    {
      hide WF, CountInv, IsRun, Enabled, Do, Keeps, Init;
      Known();
      ghost var v := View();
      var v' := Do(View(), a);
      RivalKeeps(who, v, a);
      StillReleasing(who, v, v');
      tasks, table, elems, pc, base, deques := v'.tasks, v'.table, v'.elems, v'.pc, v'.base, v'.deques;
      DidOne(who, steps, a);
      Record(v, a);
      Known();
    }

    /** The other threads take the steps of the next burst that they can take. */
    method Others(who: Who)
      requires Valid() && (who.Releaser? ==> who.k < |tasks| && tasks[who.k].status == Releasing)
      modifies this
      ensures Valid() && Did(who, old(steps), steps, []) && Keeps(who, old(View()), View())
      ensures WF(View()) && CountInv(View())
      ensures if old(schedule) == [] then schedule == [] else schedule == old(schedule)[1..]
    {
      PlayBurst(who);
    }

    /** The same, with the state in which they leave the memory. */
    method PlayBurst(who: Who)
      requires Valid() && (who.Releaser? ==> who.k < |tasks| && tasks[who.k].status == Releasing)
      modifies this
      ensures Valid() && Did(who, old(steps), steps, []) && Keeps(who, old(View()), View())
      ensures WF(View()) && CountInv(View())
      ensures if old(schedule) == [] then schedule == [] && View() == old(View())
              else schedule == old(schedule)[1..] && View() == Burst(who, old(View()), old(schedule)[0], |old(schedule)[0]|)
    {
      hide WF, CountInv, IsRun, Enabled, Do, Keeps, Init, Did, Burst;
      Known();
      KeepsRefl(who, View());
      DidNothing(who, steps);
      if schedule != [] {
        var burst := schedule[0];
        schedule := schedule[1..];
        assert Burst(who, View(), burst, 0) == View() by { NoSteps(who, View(), burst); }
        for i := 0 to |burst|
          invariant View() == Burst(who, old(View()), burst, i)
          invariant Valid() && WF(View()) && CountInv(View()) && Did(who, old(steps), steps, [])
          invariant Keeps(who, old(View()), View())
          invariant who.Releaser? ==> who.k < |tasks| && tasks[who.k].status == Releasing
          invariant schedule == old(schedule)[1..]
        {
          BurstStep(who, old(View()), burst, i);
          if Enabled(View(), burst[i]) && !Mine(who, burst[i]) {
            ghost var v, sofar := View(), steps;
            Rival(who, burst[i]);
            KeepsTrans(who, old(View()), v, View());
            DidTrans(who, old(steps), sofar, steps, [], [], []);
          }
        }
      }
    }

    // ---- create_dependencies ------------------------------------------------

    /** The newest task is t and has these arguments. */
    ghost predicate Calling(args: seq<Arg>, t: nat)
      reads this
    {
      Valid() && |tasks| == t + 1 && tasks[t].acc == Accesses(args, |args|)
    }

    method StackPush(t: nat, w: nat) returns (pushed: bool)
      requires w < |tasks|
      modifies this`tasks
      ensures pushed == !old(tasks[w].closed)
      ensures tasks == if pushed then old(tasks[w := tasks[w].(notify := [t] + tasks[w].notify)]) else old(tasks)
    {
      if tasks[w].closed { return false; }
      tasks := tasks[w := tasks[w].(notify := [t] + tasks[w].notify)];
      return true;
    }

    /** The guard, the push and deps_last, as they occur in all four branches. */
    method TryPush(seen: nat, w: nat) returns (pushed: bool)
      requires tasks != [] && w < |tasks|
      modifies this`tasks
      ensures tasks == Attempt(old(View()), seen, w).tasks && pushed == !Skips(old(View()), seen, w)
    {
      var t := |tasks| - 1;
      if t == seen || tasks[t].last == Some(seen) { return false; }
      pushed := StackPush(t, w);
      if pushed { tasks := tasks[t := tasks[t].(last := Some(w))]; }
    }

    /** One reader: the guarded push, and on to the next. */
    method VisitReader(ghost args: seq<Arg>, t: nat, r: nat) returns (pushed: bool)
      requires Calling(args, t) && pc.Walk? && pc.rest != [] && pc.rest[0] == r
      modifies this
      ensures Calling(args, t) && Did(Spawner, old(steps), steps, [Reader]) && base == old(base)
      ensures pc == Walk(old(pc.p), old(pc.n) + (if pushed then 1 else 0), old(pc.rest)[1..])
    {
      hide WF, CountInv, IsRun, Do, Attempt, Skips, Init, Did;
      Others(Spawner);
      ghost var v := View();
      ReaderIs(v);
      AttemptShape(v, r, r);
      pushed := TryPush(r, r);
      pc := Walk(pc.p, if pushed then pc.n + 1 else pc.n, pc.rest[1..]);
      DidMore(Spawner, old(steps), steps, [], Reader, [Reader]);
      Record(v, Reader);
    }

    /** The walk over the readers of the element that an OUT access replaces. */
    method VisitReaders(ghost args: seq<Arg>, t: nat, readers: seq<nat>) returns (waitfor: nat)
      requires Calling(args, t) && pc.Walk? && pc.rest == readers
      modifies this
      ensures Calling(args, t) && Did(Spawner, old(steps), steps, Times(Reader, |readers| + 1))
      ensures pc == Scan(old(pc.p) + 1, old(pc.n) + waitfor) && base == old(base)
    {
      hide WF, CountInv, IsRun, Do, Init, Did;
      waitfor := 0;
      DidNothing(Spawner, steps);
      for k := 0 to |readers|
        invariant Calling(args, t) && Did(Spawner, old(steps), steps, Times(Reader, k)) && base == old(base)
        invariant pc == Walk(old(pc.p), old(pc.n) + waitfor, readers[k..])
      {
        assert readers[k..][0] == readers[k] && readers[k..][1..] == readers[k + 1..];
        ghost var before := steps;
        var pushed := VisitReader(args, t, readers[k]);
        DidTrans(Spawner, old(steps), before, steps, Times(Reader, k), [Reader], Times(Reader, k) + [Reader]);
        if pushed { waitfor := waitfor + 1; }
      }
      LeaveReaders(args, t, old(steps), Times(Reader, |readers|));
    }

    /** The end of the list. */
    method LeaveReaders(ghost args: seq<Arg>, t: nat, ghost start: seq<Step>, ghost own: seq<Step>)
      requires Calling(args, t) && pc.Walk? && pc.rest == [] && Did(Spawner, start, steps, own)
      modifies this
      ensures Calling(args, t) && Did(Spawner, start, steps, own + [Reader])
      ensures pc == Scan(old(pc.p) + 1, old(pc.n)) && base == old(base)
    {
      hide WF, CountInv, IsRun, Do, Init, Did;
      ghost var before := steps;
      Others(Spawner);
      DidTrans(Spawner, start, before, steps, own, [], own);
      assert own + [] == own;
      ghost var v := View();
      ReaderIs(v);
      pc := Scan(pc.p + 1, pc.n);
      DidMore(Spawner, start, steps, own, Reader, own + [Reader]);
      Record(v, Reader);
    }

    /** The newest task is about to analyse access c, having pushed n times. */
    ghost predicate Reaches(args: seq<Arg>, t: nat, c: Access)
      reads this
    {
      && Calling(args, t) && pc.Scan? && pc.p < |tasks[t].acc| && tasks[t].acc[pc.p] == c
    }

    /** The WAW branch: a push to the owner of the element that is replaced. */
    method OverWriter(ghost args: seq<Arg>, t: nat, ghost v: State, c: Access, m: nat, mine: nat) returns (waitfor: nat)
      requires Reaches(args, t, c) && c.out && v == View() && mine == base + c.arg
      requires c.block in table && table[c.block] == m < |elems| && elems[m].out && elems[m].owner < |tasks|
      modifies this
      ensures Calling(args, t) && Did(Spawner, old(steps), steps, [Analyse])
      ensures pc == Scan(old(pc.p) + 1, old(pc.n) + waitfor) && base == old(base)
    {
      hide WF, CountInv, IsRun, Do, Enabled, Attempt, Skips, Init, Did;
      Known();
      AnalyseIs(v, c);
      var e := elems[m];
      table := table[c.block := mine];
      AttemptShape(View(), e.owner, e.owner);
      SameAttempt(v, View(), e.owner);
      var pushed := TryPush(e.owner, e.owner);
      waitfor := if pushed then 1 else 0;
      pc := Scan(pc.p + 1, pc.n + waitfor);
      DidOne(Spawner, steps, Analyse);
      Record(v, Analyse);
    }

    /** One block of an OUT argument; `mine` is the new element. */
    method OutBlock(ghost args: seq<Arg>, t: nat, arg: nat, j: int, mine: nat) returns (waitfor: nat, ghost own: seq<Step>)
      requires Reaches(args, t, Access(arg, j, true)) && mine == base + arg
      modifies this
      ensures Calling(args, t) && Did(Spawner, old(steps), steps, own)
      ensures exists n :: own == [Analyse] + Times(Reader, n)
      ensures pc == Scan(old(pc.p) + 1, old(pc.n) + waitfor) && base == old(base)
    {
      hide WF, CountInv, IsRun, Do, Enabled, Attempt, Skips, Init, Did;
      Others(Spawner);
      ghost var v, before := View(), steps;
      var c := Access(arg, j, true);
      AnalyseIs(v, c);
      waitfor, own := 0, [Analyse];
      assert own == [Analyse] + Times(Reader, 0);
      DidMore(Spawner, old(steps), steps, [], Analyse, [Analyse]);
      if j !in table {
        table := table[j := mine];
        pc := Scan(pc.p + 1, pc.n);
        Record(v, Analyse);
      } else {
        var m := table[j];
        var e := elems[m];
        if e.out {
          waitfor := OverWriter(args, t, v, c, m, mine);
          DidTrans(Spawner, old(steps), before, steps, [], [Analyse], [Analyse]);
        } else {
          table := table[j := mine];
          pc := Walk(pc.p, pc.n, e.readers);
          Record(v, Analyse);
          before := steps;
          waitfor := VisitReaders(args, t, e.readers);
          own := [Analyse] + Times(Reader, |e.readers| + 1);
          DidTrans(Spawner, old(steps), before, steps, [Analyse], Times(Reader, |e.readers| + 1), [Analyse] + Times(Reader, |e.readers| + 1));
        }
      }
    }

    /** The push to the last writer, after a join. */
    method PushAfterJoin(ghost args: seq<Arg>, t: nat, m: nat) returns (waitfor: nat)
      requires Calling(args, t) && pc.Join? && pc.p < |tasks[t].acc| && tasks[t].acc[pc.p].block in table
      requires table[tasks[t].acc[pc.p].block] == m
      modifies this
      ensures Calling(args, t) && Did(Spawner, old(steps), steps, [JoinPush])
      ensures pc == Scan(old(pc.p) + 1, old(pc.n) + waitfor) && base == old(base)
    {
      hide WF, CountInv, IsRun, Do, Enabled, Attempt, Skips, Init, Did;
      Others(Spawner);
      ghost var u := View();
      JoinIs(u);
      waitfor := 0;
      var e := elems[m];
      if e.dep.Some? {
        var w := elems[e.dep.value].owner;
        AttemptShape(u, e.owner, w);
        var pushed := TryPush(e.owner, w);
        if pushed { waitfor := 1; }
      }
      pc := Scan(pc.p + 1, pc.n + waitfor);
      DidMore(Spawner, old(steps), steps, [], JoinPush, [JoinPush]);
      Record(u, JoinPush);
    }

    /** Joining the readers of element m, and the push to its last writer. */
    method JoinReaders(ghost args: seq<Arg>, t: nat, ghost v: State, ghost c: Access, m: nat) returns (waitfor: nat)
      requires Reaches(args, t, c) && !c.out && v == View()
      requires c.block in table && table[c.block] == m < |elems| && !elems[m].out
      requires elems[m].owner < |tasks| && OwnerAlive(v, m)
      modifies this
      ensures Calling(args, t) && Did(Spawner, old(steps), steps, [Analyse, JoinPush])
      ensures pc == Scan(old(pc.p) + 1, old(pc.n) + waitfor) && base == old(base)
    {
      hide WF, CountInv, IsRun, Do, Enabled, Init, OwnerAlive, Did;
      Known();
      AnalyseIs(v, c);
      elems := elems[m := elems[m].(readers := [t] + elems[m].readers)];
      pc := Join(pc.p, pc.n);
      DidOne(Spawner, steps, Analyse);
      Record(v, Analyse);
      ghost var before := steps;
      waitfor := PushAfterJoin(args, t, m);
      DidTrans(Spawner, old(steps), before, steps, [Analyse], [JoinPush], [Analyse, JoinPush]);
    }

    /** The RAW branch: the new element remembers the writer that was pushed on. */
    method AfterWriter(ghost args: seq<Arg>, t: nat, ghost v: State, c: Access, m: nat, mine: nat) returns (waitfor: nat)
      requires Reaches(args, t, c) && !c.out && v == View() && mine == base + c.arg
      requires c.block in table && table[c.block] == m < |elems| && elems[m].out && elems[m].owner < |tasks|
      modifies this
      ensures Calling(args, t) && Did(Spawner, old(steps), steps, [Analyse])
      ensures pc == Scan(old(pc.p) + 1, old(pc.n) + waitfor) && base == old(base)
    {
      hide WF, CountInv, IsRun, Do, Enabled, Attempt, Skips, Init, Did;
      Known();
      AnalyseIs(v, c);
      RawIs(v, c);
      hide CanAnalyse, AnalyseIn, AnalyseOut, PushOn;
      waitfor := 0;
      var e := elems[m];
      table := table[c.block := mine];
      AttemptShape(View(), e.owner, e.owner);
      SameAttempt(v, View(), e.owner);
      var pushed := TryPush(e.owner, e.owner);
      PushedShape(v, e.owner);
      if pushed {
        waitfor := 1;
        elems := elems[mine := elems[mine].(dep := Some(m))];
      }
      pc := Scan(pc.p + 1, pc.n + waitfor);
      DidOne(Spawner, steps, Analyse);
      Record(v, Analyse);
    }

    /** The new element is the one in force, without a push. */
    method TakeElement(ghost args: seq<Arg>, t: nat, ghost v: State, c: Access, mine: nat)
      requires Reaches(args, t, c) && !c.out && v == View() && mine == base + c.arg
      requires c.block in table ==> table[c.block] < |elems| && elems[table[c.block]].owner < |tasks| && !elems[table[c.block]].out && !OwnerAlive(v, table[c.block])
      modifies this
      ensures Calling(args, t) && Did(Spawner, old(steps), steps, [Analyse])
      ensures pc == Scan(old(pc.p) + 1, old(pc.n)) && base == old(base)
    {
      hide WF, CountInv, IsRun, Do, Enabled, OwnerAlive, Init, Did;
      Known();
      AnalyseIs(v, c);
      table := table[c.block := mine];
      pc := Scan(pc.p + 1, pc.n);
      DidOne(Spawner, steps, Analyse);
      Record(v, Analyse);
    }

    /** One block of an IN argument; `mine` is the new element. */
    method InBlock(ghost args: seq<Arg>, t: nat, arg: nat, j: int, mine: nat) returns (waitfor: nat, ghost own: seq<Step>)
      requires Reaches(args, t, Access(arg, j, false)) && mine == base + arg
      modifies this
      ensures Calling(args, t) && Did(Spawner, old(steps), steps, own) && (own == [Analyse] || own == [Analyse, JoinPush])
      ensures pc == Scan(old(pc.p) + 1, old(pc.n) + waitfor) && base == old(base)
    {
      hide WF, CountInv, IsRun, Do, Enabled, Attempt, Skips, Init, Did, CanAnalyse, AnalyseIn, AnalyseOut;
      Others(Spawner);
      ghost var v := View();
      ghost var before := steps;
      var c := Access(arg, j, false);
      AnalyseIs(v, c);
      waitfor, own := 0, [Analyse];
      if j !in table {
        TakeElement(args, t, v, c, mine);
      } else {
        var m := table[j];
        var e := elems[m];
        if e.out {
          waitfor := AfterWriter(args, t, v, c, m, mine);
        } else if Rank(tasks[e.owner].status) <= Rank(Executed) {
          waitfor := JoinReaders(args, t, v, c, m);
          own := [Analyse, JoinPush];
        } else {
          TakeElement(args, t, v, c, mine);
        }
      }
      DidTrans(Spawner, old(steps), before, steps, [], own, own);
    }

    method CreateDependency(args: seq<Arg>, t: nat, i: nat) returns (waitfor: nat, ghost own: seq<Step>)
      requires Calling(args, t) && i < |args| && !args[i].safe
      requires pc.Scan? && pc.p == |Accesses(args, i)|
      modifies this
      ensures Calling(args, t) && base == old(base)
      ensures |Accesses(args, i + 1)| >= |Accesses(args, i)|
      ensures Did(Spawner, old(steps), steps, own) && Analyses(own, |Accesses(args, i + 1)| - |Accesses(args, i)|)
      ensures pc == Scan(|Accesses(args, i + 1)|, old(pc.n) + waitfor)
    {
      hide WF, CountInv, IsRun, Do, Enabled, Init, Accesses, Did, Analyses;
      var a, mine := args[i], base + i;
      waitfor, own := 0, [];
      DidNothing(Spawner, steps);
      NoAnalyses();
      NoBlocks(args, i);
      if a.lo <= a.hi { AccessAt(args, i, 0); }
      if a.out {
        var j := a.lo;
        while j <= a.hi
          invariant a.lo <= j && (j <= a.hi + 1 || j == a.lo)
          invariant Calling(args, t) && base == old(base) && Did(Spawner, old(steps), steps, own) && Analyses(own, j - a.lo)
          invariant pc == Scan(|Accesses(args, i)| + (j - a.lo), old(pc.n) + waitfor)
        {
          AccessAt(args, i, j - a.lo);
          ghost var before := steps;
          var w, o := OutBlock(args, t, i, j, mine);
          DidTrans(Spawner, old(steps), before, steps, own, o, own + o);
          AnalysesMore(own, j - a.lo, o);
          waitfor, own := waitfor + w, own + o;
          j := j + 1;
        }
      } else {
        var j := a.lo;
        while j <= a.hi
          invariant a.lo <= j && (j <= a.hi + 1 || j == a.lo)
          invariant Calling(args, t) && base == old(base) && Did(Spawner, old(steps), steps, own) && Analyses(own, j - a.lo)
          invariant pc == Scan(|Accesses(args, i)| + (j - a.lo), old(pc.n) + waitfor)
        {
          AccessAt(args, i, j - a.lo);
          ghost var before := steps;
          var w, o := InBlock(args, t, i, j, mine);
          DidTrans(Spawner, old(steps), before, steps, own, o, own + o);
          JustAnalyse();
          AnalysesMore(own, j - a.lo, o);
          waitfor, own := waitfor + w, own + o;
          j := j + 1;
        }
      }
    }

    method HandleArgument(args: seq<Arg>, t: nat, i: nat) returns (waitfor: nat, ghost own: seq<Step>)
      requires Calling(args, t) && i < |args| && pc.Scan? && pc.p == |Accesses(args, i)|
      modifies this
      ensures Calling(args, t) && base == old(base)
      ensures |Accesses(args, i + 1)| >= |Accesses(args, i)|
      ensures Did(Spawner, old(steps), steps, own) && Analyses(own, |Accesses(args, i + 1)| - |Accesses(args, i)|)
      ensures pc == Scan(|Accesses(args, i + 1)|, old(pc.n) + waitfor)
    {
      hide WF, CountInv, IsRun, Init, Did, Analyses;
      if args[i].safe {
        NoBlocks(args, i);
        DidNothing(Spawner, steps);
        NoAnalyses();
        return 0, [];
      }
      waitfor, own := CreateDependency(args, t, i);
    }

    lemma NoAnalyses()
      ensures Analyses([], 0)
    {
    }

    /** schedule_task by the spawning thread: the compare-and-swap, which never fails here,
        then the enqueue on its own deque d or the inline execution. */
    method ScheduleNewest(t: nat, d: nat)
      requires Valid() && pc == Claiming && |tasks| == t + 1 && d < threads
      modifies this
      ensures Valid() && Did(Spawner, old(steps), steps, [ParentClaim, ParentPut(d)]) && pc == Idle
      ensures |tasks| == t + 1 && tasks[t].acc == old(tasks[t].acc)
    {
      hide WF, CountInv, IsRun, Init, Do, Did;
      Others(Spawner);
      ghost var v := View();
      ClaimIs(v);
      ClaimWins(v);
      var won := tasks[t].status == Created;
      if won { tasks := tasks[t := tasks[t].(status := Scheduled)]; }
      pc := if won then Putting else Idle;
      DidMore(Spawner, old(steps), steps, [], ParentClaim, [ParentClaim]);
      Record(v, ParentClaim);
      ghost var before := steps;
      if won { PutNewest(t, d); }
      DidTrans(Spawner, old(steps), before, steps, [ParentClaim], [ParentPut(d)], [ParentClaim, ParentPut(d)]);
    }

    method PutNewest(t: nat, d: nat)
      requires Valid() && pc == Putting && |tasks| == t + 1 && d < threads
      modifies this
      ensures Valid() && Did(Spawner, old(steps), steps, [ParentPut(d)]) && pc == Idle
      ensures |tasks| == t + 1 && tasks[t].acc == old(tasks[t].acc)
    {
      hide WF, CountInv, IsRun, Init, Did;
      Others(Spawner);
      Known();
      ghost var u := View();
      pc := Idle;
      Put(t, d);
      DidMore(Spawner, old(steps), steps, [], ParentPut(d), [ParentPut(d)]);
      Record(u, ParentPut(d));
    }

    /** enqueue, or the inline execution taken when the deque is full. */
    method Put(x: nat, d: nat)
      requires x < |tasks| && d < |deques|
      modifies this`tasks, this`deques
      ensures View() == Deliver(old(View()), x, d)
    {
      if |deques[d]| < CAPACITY {
        deques := deques[d := deques[d] + [x]];
      } else {
        tasks := tasks[x := tasks[x].(runs := tasks[x].runs + 1)];
      }
    }

    /** The end of create_dependencies: CREATED at once and schedule_task, or `waitfor`
        first and CREATED afterwards. */
    method Publish(ghost args: seq<Arg>, t: nat, waitfor: nat, d: nat)
      requires Calling(args, t) && pc == Scan(|Accesses(args, |args|)|, waitfor) && d < threads
      modifies this
      ensures Calling(args, t) && pc == Idle
      ensures Did(Spawner, old(steps), steps, PublishSteps(waitfor, d))
    {
      hide WF, CountInv, IsRun, Init, Accesses, Did;
      Others(Spawner);
      ghost var u := View();
      FinishIs(u);
      DidMore(Spawner, old(steps), steps, [], Finish, [Finish]);
      if waitfor == 0 {
        tasks := tasks[t := tasks[t].(status := Created)];
        pc := Claiming;
        Record(u, Finish);
        ghost var before := steps;
        ScheduleNewest(t, d);
        DidTrans(Spawner, old(steps), before, steps, [Finish], [ParentClaim, ParentPut(d)], [Finish, ParentClaim, ParentPut(d)]);
      } else {
        tasks := tasks[t := tasks[t].(waitfor := waitfor)];
        pc := DepMachine.Publish;
        Record(u, Finish);
        ghost var before := steps;
        StoreCreated(args, t);
        DidTrans(Spawner, old(steps), before, steps, [Finish], [Publication], [Finish, Publication]);
      }
    }

    method StoreCreated(ghost args: seq<Arg>, t: nat)
      requires Calling(args, t) && pc == DepMachine.Publish
      modifies this
      ensures Calling(args, t) && pc == Idle && Did(Spawner, old(steps), steps, [Publication])
    {
      hide WF, CountInv, IsRun, Init, Accesses, Did;
      Others(Spawner);
      ghost var w := View();
      tasks := tasks[t := tasks[t].(status := Created)];
      pc := Idle;
      DidMore(Spawner, old(steps), steps, [], Publication, [Publication]);
      Record(w, Publication);
    }

    /** tpc_call up to its return: one more task, analysed and CREATED, and a history
        that is still a run.  The thread's own steps in it are the spawn, the analysis of
        all the accesses, and the publication. */
    method CreateDependencies(args: seq<Arg>, d: nat) returns (t: nat, ghost own: seq<Step>, ghost waitfor: nat)
      requires Valid() && pc == Idle && d < threads
      modifies this
      ensures Valid() && pc == Idle
      ensures t == |old(tasks)| && |tasks| == t + 1 && tasks[t].acc == Accesses(args, |args|)
      ensures tasks[t].status != Creating
      ensures Did(Spawner, old(steps), steps, [Spawn(args)] + own + PublishSteps(waitfor, d))
      ensures Analyses(own, |Accesses(args, |args|)|)
    {
      hide WF, CountInv, IsRun, Init, Accesses, Did, Analyses;
      Others(Spawner);
      ghost var v := View();
      t := |tasks|;
      base := |elems|;
      elems := elems + NewElems(args, t);
      tasks := tasks + [NewTask(args)];
      pc := Scan(0, 0);
      DidMore(Spawner, old(steps), steps, [], Spawn(args), [Spawn(args)]);
      Record(v, Spawn(args));
      var w;
      w, own := HandleArguments(args, t, old(steps));
      ghost var before := steps;
      Publish(args, t, w, d);
      DidTrans(Spawner, old(steps), before, steps, [Spawn(args)] + own, PublishSteps(w, d), [Spawn(args)] + own + PublishSteps(w, d));
      waitfor := w;
      Known();
      NotCreating(View());
    }

    /** The loop over the arguments. */
    method HandleArguments(args: seq<Arg>, t: nat, ghost start: seq<Step>) returns (waitfor: nat, ghost own: seq<Step>)
      requires Calling(args, t) && pc == Scan(0, 0) && Did(Spawner, start, steps, [Spawn(args)])
      modifies this
      ensures Calling(args, t) && pc == Scan(|Accesses(args, |args|)|, waitfor)
      ensures Did(Spawner, start, steps, [Spawn(args)] + own) && Analyses(own, |Accesses(args, |args|)|)
    {
      hide WF, CountInv, IsRun, Init, Accesses, Did, Analyses;
      waitfor, own := 0, [];
      assert Accesses(args, 0) == [] by { NoArguments(args); }
      NoAnalyses();
      assert [Spawn(args)] + own == [Spawn(args)];
      for i := 0 to |args|
        invariant Calling(args, t) && pc == Scan(|Accesses(args, i)|, waitfor)
        invariant Did(Spawner, start, steps, [Spawn(args)] + own) && Analyses(own, |Accesses(args, i)|)
      {
        ghost var before := steps;
        var w, o := HandleArgument(args, t, i);
        DidTrans(Spawner, start, before, steps, [Spawn(args)] + own, o, [Spawn(args)] + own + o);
        AnalysesThen(own, |Accesses(args, i)|, o, |Accesses(args, i + 1)| - |Accesses(args, i)|);
        assert [Spawn(args)] + own + o == [Spawn(args)] + (own + o);
        waitfor, own := waitfor + w, own + o;
      }
    }

    // ---- fire_dependencies --------------------------------------------------

    /** Task k is being released, its stack is closed, and its thread holds h. */
    ghost predicate Firing(k: nat, h: Hand)
      reads this
    {
      Valid() && k < |tasks| && tasks[k].status == Releasing && tasks[k].closed && tasks[k].hand == h
    }

    method Hold(k: nat, h: Hand)
      requires k < |tasks|
      modifies this`tasks
      ensures tasks == old(tasks[k := tasks[k].(hand := h)])
    {
      tasks := tasks[k := tasks[k].(hand := h)];
    }

    method StackLock(k: nat)
      requires Valid() && k < |tasks| && tasks[k].status == Releasing && !tasks[k].closed && tasks[k].hand == Empty
      modifies this
      ensures Firing(k, Empty) && Did(Releaser(k), old(steps), steps, [Lock(k)]) && |schedule| <= |old(schedule)|
    {
      hide WF, CountInv, IsRun, Do, Init, Did;
      Others(Releaser(k));
      ghost var v := View();
      ReleaseIs(v, Lock(k));
      tasks := tasks[k := tasks[k].(closed := true, pending := tasks[k].notify, notify := [])];
      DidMore(Releaser(k), old(steps), steps, [], Lock(k), [Lock(k)]);
      Record(v, Lock(k));
    }

    /** stack_pop on the private list, then the atomic increment of `fired`. */
    method PopAndCount(k: nat) returns (x: nat, fired: nat)
      requires Firing(k, Empty) && tasks[k].pending != []
      modifies this
      ensures Firing(k, Counted(x, fired)) && Did(Releaser(k), old(steps), steps, [Pop(k), Fire(k)]) && k < x < |tasks|
      ensures tasks[k].pending == old(tasks[k].pending[1..]) && |schedule| <= |old(schedule)|
    {
      hide WF, CountInv, IsRun, Do, Init, Did;
      Others(Releaser(k));
      ghost var v := View();
      ReleaseIs(v, Pop(k));
      LaterTask(v, k);
      x := tasks[k].pending[0];
      tasks := tasks[k := tasks[k].(pending := tasks[k].pending[1..], hand := Popped(x))];
      DidMore(Releaser(k), old(steps), steps, [], Pop(k), [Pop(k)]);
      Record(v, Pop(k));
      ghost var before := steps;
      fired := CountFired(k, x);
      DidTrans(Releaser(k), old(steps), before, steps, [Pop(k)], [Fire(k)], [Pop(k), Fire(k)]);
    }

    /** The atomic increment. */
    method CountFired(k: nat, x: nat) returns (fired: nat)
      requires Firing(k, Popped(x)) && k < x < |tasks|
      modifies this
      ensures Firing(k, Counted(x, fired)) && Did(Releaser(k), old(steps), steps, [Fire(k)]) && k < x < |tasks|
      ensures tasks[k].pending == old(tasks[k].pending) && |schedule| <= |old(schedule)|
    {
      hide WF, CountInv, IsRun, Do, Init, Did;
      Others(Releaser(k));
      ghost var u := View();
      ReleaseIs(u, Fire(k));
      fired := tasks[x].fired + 1;
      tasks := tasks[x := tasks[x].(fired := fired)];
      Hold(k, Counted(x, fired));
      DidMore(Releaser(k), old(steps), steps, [], Fire(k), [Fire(k)]);
      Record(u, Fire(k));
    }

    /** The busy wait for CREATED.  It gives up only when the task is still CREATING and the
        schedule has no more steps of others, which alone could end the wait. */
    method AwaitCreated(k: nat, x: nat, fired: nat) returns (seen: bool)
      requires Firing(k, Counted(x, fired)) && x < |tasks| && k != x
      modifies this
      ensures x < |tasks| && Did(Releaser(k), old(steps), steps, if seen then [Spin(k)] else []) && |schedule| <= |old(schedule)|
      ensures Firing(k, if seen then Seen(x, fired) else Counted(x, fired))
      ensures if seen then tasks[x].status != Creating
              else tasks[x].status == Creating && schedule == [] && View() == Played(Releaser(k), old(View()), old(schedule))
      ensures tasks[k].pending == old(tasks[k].pending)
    {
      hide WF, CountInv, IsRun, Do, Init, Did, Burst, Played;
      PlayedFirst(Releaser(k), View(), schedule);
      PlayBurst(Releaser(k));
      while tasks[x].status == Creating && schedule != []
        invariant Firing(k, Counted(x, fired)) && x < |tasks| && |schedule| <= |old(schedule)|
        invariant tasks[k].pending == old(tasks[k].pending) && WF(View()) && Did(Releaser(k), old(steps), steps, [])
        invariant Played(Releaser(k), View(), schedule) == Played(Releaser(k), old(View()), old(schedule))
        decreases |schedule|
      {
        ghost var before := steps;
        PlayedFirst(Releaser(k), View(), schedule);
        PlayBurst(Releaser(k));
        DidTrans(Releaser(k), old(steps), before, steps, [], [], []);
      }
      PlayedFirst(Releaser(k), View(), schedule);
      if tasks[x].status == Creating { return false; }
      ghost var v := View();
      ReleaseIs(v, Spin(k));
      Hold(k, Seen(x, fired));
      DidMore(Releaser(k), old(steps), steps, [], Spin(k), [Spin(k)]);
      Record(v, Spin(k));
      seen := true;
    }

    /** The two tests and schedule_task, whose swap never fails here. */
    method ScheduleFired(k: nat, x: nat, fired: nat, d: nat) returns (ready: bool)
      requires Firing(k, Seen(x, fired)) && x < |tasks| && k != x && d < threads
      modifies this
      ensures Firing(k, Empty) && |schedule| <= |old(schedule)|
      ensures Did(Releaser(k), old(steps), steps, if ready then [Test(k), Swap(k), Enqueue(k, d)] else [Test(k)])
      ensures tasks[k].pending == old(tasks[k].pending)
    {
      hide WF, CountInv, IsRun, Do, Init, Did;
      Others(Releaser(k));
      ghost var v := View();
      ReleaseIs(v, Test(k));
      ready := tasks[x].status == Created && tasks[x].waitfor == fired;
      Hold(k, if ready then Claim(x, fired) else Empty);
      DidMore(Releaser(k), old(steps), steps, [], Test(k), [Test(k)]);
      Record(v, Test(k));
      if ready {
        ghost var before := steps;
        ScheduleTask(k, x, fired, d);
        DidTrans(Releaser(k), old(steps), before, steps, [Test(k)], [Swap(k), Enqueue(k, d)], [Test(k), Swap(k), Enqueue(k, d)]);
      }
    }

    method ScheduleTask(k: nat, x: nat, fired: nat, d: nat)
      requires Firing(k, Claim(x, fired)) && x < |tasks| && k != x && d < threads
      modifies this
      ensures Firing(k, Empty) && Did(Releaser(k), old(steps), steps, [Swap(k), Enqueue(k, d)]) && |schedule| <= |old(schedule)|
      ensures tasks[k].pending == old(tasks[k].pending)
    {
      hide WF, CountInv, IsRun, Do, Init, Firing, Did;
      var won := SwapFired(k, x, fired);
      if won {
        ghost var before := steps;
        PutFired(k, x, d);
        DidTrans(Releaser(k), old(steps), before, steps, [Swap(k)], [Enqueue(k, d)], [Swap(k), Enqueue(k, d)]);
      }
    }

    /** The compare-and-swap from CREATED to SCHEDULED. */
    method SwapFired(k: nat, x: nat, fired: nat) returns (won: bool)
      requires Firing(k, Claim(x, fired)) && x < |tasks| && k != x
      modifies this
      ensures x < |tasks| && won && Did(Releaser(k), old(steps), steps, [Swap(k)]) && |schedule| <= |old(schedule)|
      ensures Firing(k, Hand.Put(x)) && tasks[k].pending == old(tasks[k].pending)
    {
      hide WF, CountInv, IsRun, Do, Init, Did;
      Others(Releaser(k));
      ghost var v := View();
      ReleaseIs(v, Swap(k));
      SwapWins(v, k);
      won := tasks[x].status == Created;
      if won { tasks := tasks[x := tasks[x].(status := Scheduled)]; }
      Hold(k, if won then Hand.Put(x) else Empty);
      DidMore(Releaser(k), old(steps), steps, [], Swap(k), [Swap(k)]);
      Record(v, Swap(k));
    }

    method PutFired(k: nat, x: nat, d: nat)
      requires Firing(k, Hand.Put(x)) && x < |tasks| && k != x && d < threads
      modifies this
      ensures Firing(k, Empty) && Did(Releaser(k), old(steps), steps, [Enqueue(k, d)]) && |schedule| <= |old(schedule)|
      ensures tasks[k].pending == old(tasks[k].pending)
    {
      hide WF, CountInv, IsRun, Do, Init, Did;
      Others(Releaser(k));
      Known();
      ghost var u := View();
      ReleaseIs(u, Enqueue(k, d));
      Hold(k, Empty);
      Put(x, d);
      DidMore(Releaser(k), old(steps), steps, [], Enqueue(k, d), [Enqueue(k, d)]);
      Record(u, Enqueue(k, d));
    }

    /** Task k has counted one of its entries, which is CREATING, and nothing else can happen. */
    ghost predicate Stuck(k: nat)
      reads this
    {
      && k < |tasks| && tasks[k].status == Releasing && tasks[k].hand.Counted? && tasks[k].hand.x < |tasks|
      && tasks[tasks[k].hand.x].status == Creating && schedule == []
    }

    /** One round of the loop: pop, count, wait, and schedule if the counts agree. */
    method FireNext(k: nat, d: nat) returns (seen: bool, ghost own: seq<Step>)
      requires Firing(k, Empty) && tasks[k].pending != [] && d < threads
      modifies this
      ensures k < |tasks| && |schedule| <= |old(schedule)| && tasks[k].pending == old(tasks[k].pending[1..])
      ensures Did(Releaser(k), old(steps), steps, own)
      ensures if seen then Firing(k, Empty) && OneFired(k, d, own) else Valid() && Stuck(k) && own == [Pop(k), Fire(k)]
    {
      hide WF, CountInv, IsRun, Do, Init, Did;
      var x, fired := PopAndCount(k);
      ghost var before := steps;
      seen := AwaitCreated(k, x, fired);
      DidTrans(Releaser(k), old(steps), before, steps, [Pop(k), Fire(k)], if seen then [Spin(k)] else [], [Pop(k), Fire(k)] + (if seen then [Spin(k)] else []));
      own := [Pop(k), Fire(k)] + if seen then [Spin(k)] else [];
      if seen {
        before := steps;
        var ready := ScheduleFired(k, x, fired, d);
        ghost var o := if ready then [Test(k), Swap(k), Enqueue(k, d)] else [Test(k)];
        DidTrans(Releaser(k), old(steps), before, steps, own, o, own + o);
        own := own + o;
      }
    }

    /** fire_dependencies: the stack is closed first, every entry is dealt with, and COMPLETE
        comes last.  It is unfinished only while an entry that it has counted is CREATING. */
    method FireDependencies(k: nat, d: nat) returns (finished: bool, ghost own: seq<Step>, ghost n: nat)
      requires Valid() && k < |tasks| && tasks[k].status == Releasing && !tasks[k].closed && tasks[k].hand == Empty
      requires d < threads
      modifies this
      ensures Valid() && old(steps) <= steps && k < |tasks|
      ensures if finished then tasks[k].status == Complete && tasks[k].pending == [] else Stuck(k)
      ensures (forall x :: 0 <= x < |tasks| ==> tasks[x].status != Creating) ==> finished
      ensures Fires(k, d, own, n)
      ensures Did(Releaser(k), old(steps), steps, [Lock(k)] + own + if finished then [Retire(k)] else [Pop(k), Fire(k)])
    {
      hide WF, CountInv, IsRun, Do, Init, Did, OneFired;
      StackLock(k);
      own, n := [], 0;
      assert [Lock(k)] + own == [Lock(k)];
      while tasks[k].pending != []
        invariant Firing(k, Empty) && Did(Releaser(k), old(steps), steps, [Lock(k)] + own) && Fires(k, d, own, n)
        decreases |tasks[k].pending|
      {
        ghost var before := steps;
        var seen, o := FireNext(k, d);
        DidTrans(Releaser(k), old(steps), before, steps, [Lock(k)] + own, o, [Lock(k)] + own + o);
        if !seen {
          DidBefore(Releaser(k), old(steps), steps, [Lock(k)] + own + o);
          return false, own, n;
        }
        assert [Lock(k)] + own + o == [Lock(k)] + (own + o);
        FiresMore(k, d, own, n, o);
        own, n := own + o, n + 1;
      }
      Retired(k, old(steps), [Lock(k)] + own);
      finished := true;
      DidBefore(Releaser(k), old(steps), steps, [Lock(k)] + own + [Retire(k)]);
    }

    /** The store of COMPLETE. */
    method Retired(k: nat, ghost start: seq<Step>, ghost own: seq<Step>)
      requires Firing(k, Empty) && tasks[k].pending == [] && Did(Releaser(k), start, steps, own)
      modifies this
      ensures Valid() && k < |tasks| && tasks[k].status == Complete && tasks[k].pending == []
      ensures Did(Releaser(k), start, steps, own + [Retire(k)])
    {
      hide WF, CountInv, IsRun, Do, Init, Did;
      ghost var before := steps;
      Others(Releaser(k));
      DidTrans(Releaser(k), start, before, steps, own, [], own);
      assert own + [] == own;
      ghost var v := View();
      ReleaseIs(v, Retire(k));
      tasks := tasks[k := tasks[k].(status := Complete)];
      DidMore(Releaser(k), start, steps, own, Retire(k), own + [Retire(k)]);
      Record(v, Retire(k));
    }
  }
}
