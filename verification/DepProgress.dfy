/** What the counters give a whole run: nobody is scheduled early or twice, nothing
    gets stuck, and between two spawns only finitely many steps are possible. */
module DepProgress {
  import opened Sums
  import opened DepMachine
  import opened DepCount
  import opened DepOrder
  import opened DepSerial

  // ---- counting, over runs --------------------------------------------------

  /** `fired` never passes `waitfor` once the task is CREATED, and SCHEDULED means
      that the two are equal and that no notification is outstanding. */
  lemma FiredWithinWaitfor(threads: nat, tr: seq<State>, steps: seq<Step>, n: nat, j: nat)
    requires IsRun(threads, tr, steps) && n < |tr| && j < |tr[n].tasks| && tr[n].tasks[j].status != Creating
    ensures tr[n].tasks[j].waitfor == tr[n].tasks[j].fired + TotalOwed(tr[n].tasks, j)
    ensures Started(tr[n].tasks[j]) ==> tr[n].tasks[j].fired == tr[n].tasks[j].waitfor
  {
    RunKeeps(threads, tr, steps, n);
    PushesEqual(tr[n], j);
  }

  /** Both compare-and-swaps of schedule_task succeed whenever they are reached, so
      exactly one agent moves a task from CREATED to SCHEDULED. */
  lemma ClaimsSucceed(threads: nat, tr: seq<State>, steps: seq<Step>, n: nat)
    requires IsRun(threads, tr, steps) && n < |steps|
    ensures steps[n].ParentClaim? ==> tr[n].tasks != [] && tr[n].tasks[|tr[n].tasks| - 1].status == Created
    ensures steps[n].Swap? ==>
              && steps[n].k < |tr[n].tasks| && tr[n].tasks[steps[n].k].hand.Claim?
              && tr[n].tasks[steps[n].k].hand.x < |tr[n].tasks|
              && tr[n].tasks[tr[n].tasks[steps[n].k].hand.x].status == Created
  {
    var s, a := tr[n], steps[n];
    RunStep(threads, tr, steps, n);
    hide CountInv, IsRun;
    if a.ParentClaim? { ParentClaimKeeps(s); }
    if a.Swap? {
      assert TaskOk(s.tasks[a.k], a.k, |s.tasks|);
      SwapKeeps(s, a.k);
    }
  }

  /** No two agents ever head for the swap of the same task, and none does while the
      parent heads for it. */
  lemma OneClaimant(s: State, k: nat, l: nat)
    requires CountInv(s) && k < l < |s.tasks| && s.tasks[k].hand.Claim? && s.tasks[l].hand.Claim?
    ensures s.tasks[k].hand.x != s.tasks[l].hand.x
    ensures s.pc.Claiming? ==> s.tasks[k].hand.x != |s.tasks| - 1
  {
    HandIsOk(s.tasks, k);
    HandIsOk(s.tasks, l);
  }

  /** A body starts at most once, not before SCHEDULED, and exactly once by EXECUTED. */
  lemma BodiesRunOnce(threads: nat, tr: seq<State>, steps: seq<Step>, n: nat, j: nat)
    requires IsRun(threads, tr, steps) && n < |tr| && j < |tr[n].tasks|
    ensures tr[n].tasks[j].runs <= 1
    ensures tr[n].tasks[j].runs == 1 ==> Started(tr[n].tasks[j])
    ensures Rank(tr[n].tasks[j].status) >= Rank(Executed) ==> tr[n].tasks[j].runs == 1
  {
    RunKeeps(threads, tr, steps, n);
    RunsOnce(tr[n], j);
  }

  lemma OneBody(s: State, a: Step, k: nat)
    requires WF(s) && CountInv(s) && Enabled(s, a) && !a.Spawn? && k < |s.tasks|
    ensures |Do(s, a).tasks| == |s.tasks| && BodyMoves(s.tasks[k], Do(s, a).tasks[k], a == End(k))
  {
    hide WF, CountInv, Enabled, Do;
    if IsAnalysis(a) { AnalysisBody(s, a, k); } else { QuietBody(s, a, k); }
  }

  lemma StartsEmpty(threads: nat, tr: seq<State>, steps: seq<Step>)
    requires IsRun(threads, tr, steps)
    ensures |tr| > 0 && tr[0].tasks == []
  {
  }

  /** A task gets to EXECUTED only by the end of its body. */
  lemma {:induction false} ExecutedByEnd(threads: nat, tr: seq<State>, steps: seq<Step>, n: nat, j: nat)
    requires IsRun(threads, tr, steps) && n < |tr| && j < |tr[n].tasks| && Rank(tr[n].tasks[j].status) >= Rank(Executed)
    ensures End(j) in steps[..if n <= |steps| then n else |steps|]
  {
    StartsEmpty(threads, tr, steps);
    hide *;
    if n > 0 {
      RunStep(threads, tr, steps, n - 1);
      var s, a := tr[n - 1], steps[n - 1];
      InPrefix(steps, n, End(j));
      ExecutedBefore(s, a, j);
      if a != End(j) { ExecutedByEnd(threads, tr, steps, n - 1, j); }
    }
  }

  lemma InPrefix(steps: seq<Step>, n: nat, a: Step)
    requires 0 < n <= |steps|
    ensures a in steps[..n] <==> a == steps[n - 1] || a in steps[..n - 1]
  {
    assert steps[..n] == steps[..n - 1] + [steps[n - 1]];
  }

  lemma ExecutedBefore(s: State, a: Step, j: nat)
    requires WF(s) && CountInv(s) && Enabled(s, a) && j < |Do(s, a).tasks|
    requires Rank(Do(s, a).tasks[j].status) >= Rank(Executed)
    ensures a == End(j) || (j < |s.tasks| && Rank(s.tasks[j].status) >= Rank(Executed))
  {
    if a.Spawn? {
      SpawnedTasks(s, a.args);
      hide WF, CountInv, Do;
    } else {
      hide WF, CountInv, Do, Enabled;
      SameCount(s, a);
      OneBody(s, a, j);
    }
  }

  lemma SameCount(s: State, a: Step)
    requires WF(s) && CountInv(s) && Enabled(s, a) && !a.Spawn?
    ensures |Do(s, a).tasks| == |s.tasks|
  {
    SomeTask(s, a);
    hide WF, CountInv, Do, Enabled;
    OneBody(s, a, 0);
  }

  /** The assertion after the body: while a body runs, its task is SCHEDULED. */
  lemma ScheduledWhileRunning(threads: nat, tr: seq<State>, steps: seq<Step>, n: nat, j: nat)
    requires IsRun(threads, tr, steps) && n < |tr| && n <= |steps| && j < |tr[n].tasks|
    requires tr[n].tasks[j].runs > 0 && End(j) !in steps[..n]
    ensures tr[n].tasks[j].status == Scheduled
  {
    hide IsRun, WF;
    BodiesRunOnce(threads, tr, steps, n, j);
    if Rank(tr[n].tasks[j].status) >= Rank(Executed) { ExecutedByEnd(threads, tr, steps, n, j); }
  }

  // ---- what a notification stands for ---------------------------------------

  lemma StackStays(s: State, a: Step, k: nat, j: nat)
    requires WF(s) && CountInv(s) && Enabled(s, a) && k < |s.tasks| && (j in s.tasks[k].notify || Released(s.tasks[k]))
    ensures k < |Do(s, a).tasks| && (j in Do(s, a).tasks[k].notify || Released(Do(s, a).tasks[k]))
  {
    if IsAnalysis(a) {
      var w := AnalysisPushes(s, a);
    } else if !a.Spawn? {
      QuietSteps(s, a);
      assert PhaseOk(s.tasks[k]);
    }
    hide WF, BalanceOk, HandsOk, AwaitedOk, TokensOk, SameAnalysis;
  }

  lemma {:induction false} StackStaysOverRun(threads: nat, tr: seq<State>, steps: seq<Step>, m: nat, n: nat, k: nat, j: nat)
    requires IsRun(threads, tr, steps) && m <= n < |tr| && k < |tr[m].tasks| && j in tr[m].tasks[k].notify
    ensures k < |tr[n].tasks| && (j in tr[n].tasks[k].notify || Released(tr[n].tasks[k]))
  {
    hide IsRun, WF, CountInv, Enabled, Do;
    if m < n {
      StackStaysOverRun(threads, tr, steps, m, n - 1, k, j);
      RunStep(threads, tr, steps, n - 1);
      StackStays(tr[n - 1], steps[n - 1], k, j);
    }
  }

  /** Once the counters of a CREATED task agree, every task it was ever pushed on has
      been released. */
  lemma EqualCountersMeanReleased(threads: nat, tr: seq<State>, steps: seq<Step>, m: nat, n: nat, k: nat, j: nat)
    requires IsRun(threads, tr, steps) && m <= n < |tr| && k < |tr[m].tasks| && j in tr[m].tasks[k].notify
    requires j < |tr[n].tasks| && tr[n].tasks[j].status != Creating && tr[n].tasks[j].fired == tr[n].tasks[j].waitfor
    ensures k < |tr[n].tasks| && Released(tr[n].tasks[k])
  {
    StackStaysOverRun(threads, tr, steps, m, n, k, j);
    FiredWithinWaitfor(threads, tr, steps, n, j);
    OwedEntry(tr[n].tasks, k, j);
    OccursIn(tr[n].tasks[k].notify, j);
  }

  // ---- no deadlock ----------------------------------------------------------

  /** Everything before task k is COMPLETE. */
  ghost predicate CompleteUpTo(ts: seq<Task>, k: nat) {
    k <= |ts| && forall i :: 0 <= i < k ==> ts[i].status == Complete
  }

  lemma {:induction false} FirstIncomplete(ts: seq<Task>, n: nat) returns (k: nat)
    requires n <= |ts|
    ensures k <= n && CompleteUpTo(ts, k) && (k == n || ts[k].status != Complete)
  {
    if n == 0 {
      k := 0;
    } else {
      k := FirstIncomplete(ts, n - 1);
      if k == n - 1 && ts[k].status == Complete { k := n; }
    }
  }

  /** No earlier task owes task k a notification or is dealing with it. */
  predicate Silent(t: Task, k: nat) {
    k !in t.notify && k !in t.pending && HandTask(t.hand) != Some(k)
  }

  ghost predicate SilentTo(ts: seq<Task>, k: nat) {
    k <= |ts| && forall i :: 0 <= i < k ==> Silent(ts[i], k)
  }

  lemma CompleteIsSilent(ts: seq<Task>, k: nat)
    requires PhasesOk(ts) && CompleteUpTo(ts, k)
    ensures SilentTo(ts, k)
  {
    forall i | 0 <= i < k ensures Silent(ts[i], k) { assert PhaseOk(ts[i]); }
  }

  /** Nothing is owed to, and nobody carries or delivers, a task whose predecessors are
      silent. */
  lemma NothingOwed(s: State, k: nat)
    requires TasksOk(s.tasks) && PhasesOk(s.tasks) && SilentTo(s.tasks, k) && k < |s.tasks|
    ensures TotalOwed(s.tasks, k) == 0 && Delivering(s.tasks, k) == 0
    ensures forall f :: !Carried(s.tasks, k, f)
  {
    forall i | 0 <= i < |s.tasks|
      ensures Owed(s.tasks[i], k) == 0 && Putting1(s.tasks[i], k) == 0 && forall f :: !Carries(s.tasks[i], k, f)
    {
      assert TaskOk(s.tasks[i], i, |s.tasks|) && PhaseOk(s.tasks[i]);
      assert i < k ==> Silent(s.tasks[i], k);
      OccursIn(s.tasks[i].notify, k);
      OccursIn(s.tasks[i].pending, k);
    }
    SumZero(OwedBy(s.tasks, k), |s.tasks|);
    SumZero(PuttingBy(s.tasks, k), |s.tasks|);
  }

  lemma CreatedIsAwaited(s: State, k: nat)
    requires CountInv(s) && TasksOk(s.tasks) && SilentTo(s.tasks, k) && k < |s.tasks| && s.pc == Idle
    ensures s.tasks[k].status !in {Creating, Created}
  {
    hide HandsOk, TokensOk, Sum;
    NothingOwed(s, k);
    PushesEqual(s, k);
  }

  lemma ScheduledIsQueued(s: State, k: nat) returns (d: nat)
    requires CountInv(s) && TasksOk(s.tasks) && SilentTo(s.tasks, k) && k < |s.tasks| && s.pc == Idle
    requires s.tasks[k].status == Scheduled && s.tasks[k].runs == 0
    ensures d < |s.deques| && s.deques[d] != []
  {
    hide HandsOk, BalanceOk, AwaitedOk;
    NothingOwed(s, k);
    assert TokenOk(s, k);
    d := SumPositive(QueuedBy(s.deques, k), |s.deques|);
  }

  /** With nothing in flight, an incomplete task means a non-empty deque. */
  lemma IdleMeansQueued(threads: nat, tr: seq<State>, steps: seq<Step>, n: nat) returns (d: nat)
    requires IsRun(threads, tr, steps) && n < |tr| && tr[n].pc == Idle
    requires forall t <- tr[n].tasks :: t.status in {Created, Complete} || (t.status == Scheduled && t.runs == 0)
    requires exists t :: t in tr[n].tasks && t.status != Complete
    ensures d < |tr[n].deques| && tr[n].deques[d] != []
  {
    var s := tr[n];
    RunKeeps(threads, tr, steps, n);
    var k := FirstIncomplete(s.tasks, |s.tasks|);
    CompleteIsSilent(s.tasks, k);
    hide CountInv;
    CreatedIsAwaited(s, k);
    d := ScheduledIsQueued(s, k);
  }

  /** The step a parent that is not idle can always take. */
  function ParentStep(s: State): Step
    requires s.pc != Idle && s.tasks != []
  {
    if s.pc.Scan? then (if s.pc.p < |s.tasks[|s.tasks| - 1].acc| then Analyse else Finish)
    else if s.pc.Walk? then Reader
    else if s.pc.Join? then JoinPush
    else if s.pc.Publish? then Publication
    else if s.pc.Claiming? then ParentClaim
    else ParentPut(0)
  }

  /** The step a releasing task can always take, when no task is CREATING. */
  function ReleaseStep(t: Task, k: nat): Step {
    if !t.closed then Lock(k)
    else match t.hand
      case Empty => if t.pending != [] then Pop(k) else Retire(k)
      case Popped(_) => Fire(k)
      case Counted(_, _) => Spin(k)
      case Seen(_, _) => Test(k)
      case Claim(_, _) => Swap(k)
      case Put(_) => Enqueue(k, 0)
  }

  lemma ReleaseEnabled(s: State, k: nat)
    requires TasksOk(s.tasks) && CreatingOk(s.tasks, s.pc) && k < |s.tasks| && s.tasks[k].status == Releasing
    requires s.pc == Idle && s.deques != []
    ensures Enabled(s, ReleaseStep(s.tasks[k], k))
  {
    assert TaskOk(s.tasks[k], k, |s.tasks|);
  }

  lemma ParentCanMove(s: State)
    requires WF(s) && s.pc != Idle && s.deques != []
    ensures s.tasks != [] && Enabled(s, ParentStep(s)) && !ParentStep(s).Spawn?
  {
  }

  lemma TaskCanMove(s: State, k: nat) returns (a: Step)
    requires WF(s) && CountInv(s) && s.pc == Idle && s.deques != []
    requires SilentTo(s.tasks, k) && k < |s.tasks| && s.tasks[k].status != Complete
    ensures Enabled(s, a) && !ByParent(a)
    ensures a.End? || a.Release? ==> a.k == k
  {
    CreatedIsAwaited(s, k);
    hide CountInv, WF;
    var t := s.tasks[k];
    if t.status == Scheduled && t.runs > 0 {
      a := End(k);
    } else if t.status == Scheduled {
      var d := ScheduledIsQueued(s, k);
      a := PopFront(d);
    } else if t.status == Executed {
      a := Release(k);
    } else {
      a := ReleaseStep(t, k);
      ReleasingHere(s, k);
    }
  }

  lemma CanMove(s: State) returns (a: Step)
    requires WF(s) && CountInv(s) && s.deques != []
    requires s.pc != Idle || exists t :: t in s.tasks && t.status != Complete
    ensures Enabled(s, a) && !a.Spawn?
  {
    hide CountInv, WF, Enabled;
    if s.pc != Idle {
      ParentCanMove(s);
      a := ParentStep(s);
    } else {
      var k := FirstIncomplete(s.tasks, |s.tasks|);
      FirstIsSilent(s, k);
      a := TaskCanMove(s, k);
    }
  }

  lemma FirstIsSilent(s: State, k: nat)
    requires CountInv(s) && CompleteUpTo(s.tasks, k)
    ensures SilentTo(s.tasks, k)
  {
    CompleteIsSilent(s.tasks, k);
  }

  /** As long as a call is under way or a task is incomplete, some step other than a
      spawn is possible. */
  lemma NoDeadlock(threads: nat, tr: seq<State>, steps: seq<Step>, n: nat) returns (a: Step)
    requires threads > 0 && IsRun(threads, tr, steps) && n < |tr|
    requires tr[n].pc != Idle || exists t :: t in tr[n].tasks && t.status != Complete
    ensures WF(tr[n]) && Enabled(tr[n], a) && !a.Spawn?
  {
    hide IsRun, CountInv, WF, Enabled;
    RunKeeps(threads, tr, steps, n);
    ThreadsStay(threads, tr, steps, n);
    a := CanMove(tr[n]);
  }

  lemma ReleasingHere(s: State, k: nat)
    requires WF(s) && CountInv(s) && k < |s.tasks| && s.tasks[k].status == Releasing && s.pc == Idle && s.deques != []
    ensures Enabled(s, ReleaseStep(s.tasks[k], k))
  {
    ReleaseEnabled(s, k);
  }

  lemma {:induction false} ThreadsStay(threads: nat, tr: seq<State>, steps: seq<Step>, n: nat)
    requires IsRun(threads, tr, steps) && n < |tr|
    ensures |tr[n].deques| == threads
  {
    if n > 0 {
      ThreadsStay(threads, tr, steps, n - 1);
      assert Next(tr[n - 1], steps[n - 1], tr[n]);
      DequeCount(tr[n - 1], steps[n - 1]);
    }
  }

  lemma DequeCount(s: State, a: Step)
    requires WF(s) && Enabled(s, a)
    ensures |Do(s, a).deques| == |s.deques|
  {
    hide WF;
  }

  // ---- only finitely many steps between spawns ------------------------------

  /** How far the parent is from the end of its call. */
  function ParentWork(s: State): nat {
    if s.tasks == [] then 0
    else
      var left := |s.tasks[|s.tasks| - 1].acc|;
      match s.pc
      case Idle => 0
      case Publish => 1
      case Putting => 2
      case Claiming => 3
      case Scan(p, _) => if p <= left then 3 * (left - p) + 5 else 5
      case Walk(p, _, _) => if p <= left then 3 * (left - p) + 4 else 4
      case Join(p, _) => if p <= left then 3 * (left - p) + 4 else 4
  }

  function WalkWork(s: State): nat { if s.pc.Walk? then |s.pc.rest| else 0 }

  function HandWork(h: Hand): nat {
    match h
    case Empty => 0
    case Put(_) => 2
    case Claim(_, _) => 3
    case Seen(_, _) => 4
    case Counted(_, _) => 5
    case Popped(_) => 6
  }

  function TaskWork(t: Task): nat {
    10 * (|t.notify| + |t.pending|) + HandWork(t.hand) + (if t.closed then 0 else 1) + (Rank(Complete) - Rank(t.status))
  }

  function Works(ts: seq<Task>): (v: seq<nat>)
    ensures |v| == |ts|
  {
    seq(|ts|, k requires 0 <= k < |ts| => TaskWork(ts[k]))
  }

  function Lengths(dq: seq<seq<nat>>): (v: seq<nat>)
    ensures |v| == |dq|
  {
    seq(|dq|, d requires 0 <= d < |dq| => |dq[d]|)
  }

  function AgentWork(s: State): nat { Sum(Works(s.tasks)) + Sum(Lengths(s.deques)) }

  /** The lexicographic order on (ParentWork, WalkWork, AgentWork). */
  predicate Less(s': State, s: State) {
    || ParentWork(s') < ParentWork(s)
    || (ParentWork(s') == ParentWork(s)
        && (WalkWork(s') < WalkWork(s) || (WalkWork(s') == WalkWork(s) && AgentWork(s') < AgentWork(s))))
  }

  lemma WorkUpdate(ts: seq<Task>, k: nat, t: Task)
    requires k < |ts|
    ensures Sum(Works(ts[k := t])) + TaskWork(ts[k]) == Sum(Works(ts)) + TaskWork(t)
  {
    assert Works(ts[k := t]) == Works(ts)[k := TaskWork(t)];
    SumUpdate(Works(ts), k, TaskWork(t));
  }

  lemma LengthUpdate(dq: seq<seq<nat>>, d: nat, q: seq<nat>)
    requires d < |dq|
    ensures Sum(Lengths(dq[d := q])) + |dq[d]| == Sum(Lengths(dq)) + |q|
  {
    assert Lengths(dq[d := q]) == Lengths(dq)[d := |q|];
    SumUpdate(Lengths(dq), d, |q|);
  }

  lemma ParentLess(s: State, a: Step)
    requires WF(s) && Enabled(s, a) && ByParent(a) && !a.Spawn?
    ensures Less(Do(s, a), s)
  {
    hide Sum;
    if IsAnalysis(a) {
      var w := AnalysisPushes(s, a);
      AnalysisShape(s, a);
    }
    hide WF;
  }

  lemma AnalysisShape(s: State, a: Step)
    requires WF(s) && Enabled(s, a) && IsAnalysis(a)
    ensures var s' := Do(s, a);
      || (s'.pc.Scan? && s'.pc.p == s.pc.p + 1)
      || (s.pc.Scan? && !s'.pc.Scan? && Analysing(s'.pc) && s'.pc.p == s.pc.p)
      || (s.pc.Walk? && s'.pc.Walk? && s'.pc.p == s.pc.p && |s'.pc.rest| < |s.pc.rest|)
  {
  }

  lemma AgentLess(s: State, a: Step)
    requires WF(s) && CountInv(s) && Enabled(s, a) && !ByParent(a)
    ensures Less(Do(s, a), s)
  {
    AgentOthers(s, a);
    hide Sum, WF, BalanceOk, HandsOk, AwaitedOk, TokensOk;
    if a.PopFront? || a.Steal? { StartLess(s, a); }
    else if a.Fire? { FireLess(s, a.k); }
    else if a.Swap? { SwapLess(s, a.k); }
    else if a.Enqueue? { EnqueueLess(s, a.k, a.d); }
    else { OwnLess(s, a); }
  }

  lemma AgentPc(s: State, a: Step)
    requires WF(s) && Enabled(s, a) && !ByParent(a)
    ensures Do(s, a).pc == s.pc
  {
    hide WF;
  }

  lemma AgentOthers(s: State, a: Step)
    requires WF(s) && CountInv(s) && Enabled(s, a) && !ByParent(a)
    ensures ParentWork(Do(s, a)) == ParentWork(s) && WalkWork(Do(s, a)) == WalkWork(s)
  {
    hide *;
    StepFacts(s);
    IsQuietAgent(a);
    QuietSteps(s, a);
    AgentPc(s, a);
    SameWork(s, Do(s, a));
  }

  lemma IsQuietAgent(a: Step)
    ensures !ByParent(a) ==> IsQuiet(a)
  {
  }

  lemma SameWork(s: State, s': State)
    requires SameAnalysis(s, s') && s'.pc == s.pc
    ensures ParentWork(s') == ParentWork(s) && WalkWork(s') == WalkWork(s)
  {
  }

  lemma StartLess(s: State, a: Step)
    requires WF(s) && Enabled(s, a) && (a.PopFront? || a.Steal?)
    ensures AgentWork(Do(s, a)) < AgentWork(s)
  {
    hide Sum;
    assert Within(s.deques[a.d], 0, |s.tasks|);
    var x := if a.PopFront? then s.deques[a.d][|s.deques[a.d]| - 1] else s.deques[a.d][0];
    WorkUpdate(s.tasks, x, Do(s, a).tasks[x]);
    LengthUpdate(s.deques, a.d, Do(s, a).deques[a.d]);
  }

  lemma FireLess(s: State, k: nat)
    requires WF(s) && Enabled(s, Fire(k))
    ensures AgentWork(Do(s, Fire(k))) < AgentWork(s)
  {
    hide Sum;
    assert TaskOk(s.tasks[k], k, |s.tasks|);
    var s' := DoFire(s, k);
    var x := s.tasks[k].hand.x;
    WorkUpdate(s.tasks, x, s'.tasks[x]);
    WorkUpdate(s.tasks[x := s'.tasks[x]], k, s'.tasks[k]);
  }

  lemma SwapLess(s: State, k: nat)
    requires WF(s) && Enabled(s, Swap(k))
    ensures AgentWork(Do(s, Swap(k))) < AgentWork(s)
  {
    hide Sum;
    assert TaskOk(s.tasks[k], k, |s.tasks|);
    var s' := DoSwap(s, k);
    var x := s.tasks[k].hand.x;
    WorkUpdate(s.tasks, x, s'.tasks[x]);
    WorkUpdate(s.tasks[x := s'.tasks[x]], k, s'.tasks[k]);
    WorkUpdate(s.tasks, k, s'.tasks[k]);
  }

  lemma EnqueueLess(s: State, k: nat, d: nat)
    requires WF(s) && Enabled(s, Enqueue(k, d))
    ensures AgentWork(Do(s, Enqueue(k, d))) < AgentWork(s)
  {
    hide Sum;
    assert TaskOk(s.tasks[k], k, |s.tasks|);
    var s' := DoEnqueue(s, k, d);
    var x := s.tasks[k].hand.x;
    WorkUpdate(s.tasks, k, s'.tasks[k]);
    WorkUpdate(s.tasks[k := s'.tasks[k]], x, s'.tasks[x]);
    LengthUpdate(s.deques, d, s.deques[d] + [x]);
  }

  lemma OwnLess(s: State, a: Step)
    requires WF(s) && PhasesOk(s.tasks) && Enabled(s, a) && !ByParent(a)
    requires !(a.PopFront? || a.Steal? || a.Fire? || a.Swap? || a.Enqueue?)
    ensures AgentWork(Do(s, a)) < AgentWork(s)
  {
    hide Sum;
    assert PhaseOk(s.tasks[a.k]);
    WorkUpdate(s.tasks, a.k, Do(s, a).tasks[a.k]);
  }

  lemma StepLess(s: State, a: Step)
    requires WF(s) && CountInv(s) && Enabled(s, a) && !a.Spawn?
    ensures Less(Do(s, a), s)
  {
    hide WF, CountInv, Less, Do;
    if ByParent(a) { ParentLess(s, a); } else { AgentLess(s, a); }
  }

  /** Every step of a run except a spawn descends in a well-founded order. */
  lemma StepsDescend(threads: nat, tr: seq<State>, steps: seq<Step>, n: nat)
    requires IsRun(threads, tr, steps) && n < |steps| && !steps[n].Spawn?
    ensures Less(tr[n + 1], tr[n])
  {
    RunStep(threads, tr, steps, n);
    hide WF, CountInv, Less, IsRun, Do;
    StepLess(tr[n], steps[n]);
  }

  // ---- every run can be completed -------------------------------------------

  /** The states visited by taking the steps from s. */
  ghost predicate Continues(s: State, tr: seq<State>, steps: seq<Step>) {
    && |tr| == |steps| + 1 && tr[0] == s
    && forall i :: 0 <= i < |steps| ==> Next(tr[i], steps[i], tr[i + 1])
  }

  lemma Prepend(s: State, a: Step, tr: seq<State>, steps: seq<Step>)
    requires WF(s) && Enabled(s, a) && Continues(Do(s, a), tr, steps)
    ensures Continues(s, [s] + tr, [a] + steps)
    ensures |tr| == |steps| + 1 && ([s] + tr)[|steps| + 1] == tr[|steps|]
  {
    hide WF, Enabled, Do;
    var tr', steps' := [s] + tr, [a] + steps;
    forall i | 0 <= i < |steps'| ensures Next(tr'[i], steps'[i], tr'[i + 1]) {
      if i > 0 { assert Next(tr[i - 1], steps[i - 1], tr[i]); }
    }
  }

  /** Everything spawned so far is over. */
  predicate AllDone(s: State) {
    s.pc == Idle && forall k :: 0 <= k < |s.tasks| ==> s.tasks[k].status == Complete && s.tasks[k].runs == 1
  }

  /** Exactly once by quiescence: from every state that a run can reach, whatever has
      been called can be brought to its end without further calls, and then every body
      has run exactly once.  By StepsDescend no scheduling can put that off for ever. */
  lemma {:induction false} Quiescence(s: State) returns (tr: seq<State>, steps: seq<Step>)
    requires WF(s) && CountInv(s) && s.deques != []
    ensures Continues(s, tr, steps) && |tr| == |steps| + 1 && (forall i :: 0 <= i < |steps| ==> !steps[i].Spawn?)
    ensures AllDone(tr[|steps|]) && |tr[|steps|].tasks| == |s.tasks|
    decreases ParentWork(s), WalkWork(s), AgentWork(s)
  {
    hide WF, Enabled, Do, CountInv, ParentWork, WalkWork, AgentWork;
    if s.pc != Idle || exists t :: t in s.tasks && t.status != Complete {
      var a := CanMove(s);
      StepKeeps(s, a);
      StepLess(s, a);
      DequeCount(s, a);
      SameCount(s, a);
      var tr1, steps1 := Quiescence(Do(s, a));
      Prepend(s, a, tr1, steps1);
      tr, steps := [s] + tr1, [a] + steps1;
    } else {
      forall k | 0 <= k < |s.tasks| ensures s.tasks[k].status == Complete && s.tasks[k].runs == 1 {
        assert s.tasks[k] in s.tasks;
        CompleteRan(s, k);
      }
      tr, steps := [s], [];
    }
  }

  lemma CompleteRan(s: State, k: nat)
    requires CountInv(s) && k < |s.tasks| && s.tasks[k].status == Complete
    ensures s.tasks[k].runs == 1
  {
  }
}
