/** release_task and the end of execute_task on shared descriptors, with other threads
    interfering before every access. */
module ReleaseRuntime {
  import opened ReleaseTree

  /** The thread that runs the body of k, or the one that releases k. */
  datatype Who = Runner(k: nat) | Releaser(k: nat)

  predicate Mine(who: Who, a: Step) {
    match who
    case Runner(k) => a == Call(k) || a == EndBody(k) || a == Test(k) || a == OwnSwap(k)
    case Releaser(k) =>
      a == Fired(k) || a == Decrement(k) || a == Check(k) || a == UpSwap(k) || a == DecrementAndCheck(k)
  }

  /** What the others leave alone. */
  ghost predicate Keeps(who: Who, ts: seq<Task>, ts': seq<Task>) {
    && |ts| <= |ts'| && who.k < |ts|
    && (forall j :: 0 <= j < |ts| ==> ts'[j].parent == ts[j].parent && (Released(ts, j) ==> Released(ts', j)))
    && match who
       case Runner(k) => ts'[k].own == ts[k].own && (ts[k].phase == Running ==> ts'[k].phase == Running)
       case Releaser(k) => ts'[k].up == ts[k].up && (ts[k].phase == Releasing ==> ts'[k].phase == Releasing)
  }

  lemma RivalKeeps(who: Who, ts: seq<Task>, a: Step)
    requires ShapeOk(ts) && Enabled(ts, a) && !Mine(who, a) && who.k < |ts|
    ensures Keeps(who, ts, Do(ts, a))
  {
    if !a.Call? { assert PhaseOk(ts[a.k]); }
    assert PhaseOk(ts[who.k]);
    forall j | 0 <= j < |ts| ensures Do(ts, a)[j].parent == ts[j].parent && (Released(ts, j) ==> Released(Do(ts, a), j)) {
      WinsRelease(ts, a, j);
    }
  }

  // ---- a thread's own accesses ------------------------------------------------

  /** Step number n of the history is a. */
  ghost predicate At(tr: seq<seq<Task>>, st: seq<Step>, n: nat, a: Step) {
    n < |st| && n < |tr| && st[n] == a && Enabled(tr[n], a)
  }

  lemma AtStays(tr: seq<seq<Task>>, st: seq<Step>, tr': seq<seq<Task>>, st': seq<Step>, n: nat, a: Step)
    requires At(tr, st, n, a) && tr <= tr' && st <= st'
    ensures At(tr', st', n, a) && tr'[n] == tr[n]
  {
    hide Enabled;
  }

  /** The steps numbered `own` are those of release_task(k), whose compare-and-swap is
      `swap`: nothing more if the swap is lost; otherwise fire_dependencies, and what the
      parent needs. */
  ghost predicate Climbs(tr: seq<seq<Task>>, st: seq<Step>, own: seq<nat>, k: nat, swap: Step)
    decreases |own|
  {
    && own != [] && At(tr, st, own[0], swap)
    && if Wins(tr[own[0]], swap, k)
       then |own| > 1 && At(tr, st, own[1], Fired(k)) && GoesUp(tr, st, own[2..], k, tr[own[1]][k].parent)
       else |own| == 1
  }

  /** The decrement of the parent's counter, the test of its status if the counter is now
      zero, and release_task of the parent if the parent is EXECUTED. */
  ghost predicate GoesUp(tr: seq<seq<Task>>, st: seq<Step>, own: seq<nat>, k: nat, parent: Option<nat>)
    decreases |own|
  {
    match parent
    case None => own == []
    case Some(p) =>
      && own != [] && At(tr, st, own[0], Decrement(k)) && p < |tr[own[0]]|
      && if tr[own[0]][p].children != 1 then |own| == 1
         else
           && |own| > 1 && At(tr, st, own[1], Check(k)) && p < |tr[own[1]]|
           && if tr[own[1]][p].phase == Executed then Climbs(tr, st, own[2..], p, UpSwap(k)) else |own| == 2
  }

  lemma {:induction false} ClimbsLost(tr: seq<seq<Task>>, st: seq<Step>, n: nat, k: nat, swap: Step)
    requires At(tr, st, n, swap) && !Wins(tr[n], swap, k)
    ensures Climbs(tr, st, [n], k, swap)
  {
    hide At, Wins;
  }

  lemma {:induction false} ClimbsWon(tr: seq<seq<Task>>, st: seq<Step>, n: nat, f: nat, more: seq<nat>, k: nat, swap: Step)
    requires At(tr, st, n, swap) && Wins(tr[n], swap, k) && At(tr, st, f, Fired(k)) && k < |tr[f]|
    requires GoesUp(tr, st, more, k, tr[f][k].parent)
    ensures Climbs(tr, st, [n, f] + more, k, swap)
  {
    assert ([n, f] + more)[2..] == more;
    hide At, Wins, GoesUp;
  }

  lemma {:induction false} GoesUpOne(tr: seq<seq<Task>>, st: seq<Step>, n: nat, k: nat, p: nat)
    requires At(tr, st, n, Decrement(k)) && p < |tr[n]| && tr[n][p].children != 1
    ensures GoesUp(tr, st, [n], k, Some(p))
  {
    hide At;
  }

  lemma {:induction false} GoesUpMore(tr: seq<seq<Task>>, st: seq<Step>, n: nat, c: nat, more: seq<nat>, k: nat, p: nat)
    requires At(tr, st, n, Decrement(k)) && p < |tr[n]| && tr[n][p].children == 1
    requires At(tr, st, c, Check(k)) && p < |tr[c]|
    requires if tr[c][p].phase == Executed then Climbs(tr, st, more, p, UpSwap(k)) else more == []
    ensures GoesUp(tr, st, [n, c] + more, k, Some(p))
  {
    assert ([n, c] + more)[2..] == more;
    hide At, Climbs;
  }

  predicate Settled(ts: seq<Task>, k: nat) { k < |ts| && ts[k].phase == Complete && ts[k].up == Done }

  /** Every task that was released in one of these steps is COMPLETE, and its thread has
      gone as far up as it had to. */
  ghost predicate AllSettled(ts: seq<Task>, st: seq<Step>, own: seq<nat>) {
    forall m :: 0 <= m < |own| && own[m] < |st| && st[own[m]].Fired? ==> Settled(ts, st[own[m]].k)
  }

  /** All these steps are number `from` or later. */
  ghost predicate AllSince(own: seq<nat>, from: nat) {
    forall m :: 0 <= m < |own| ==> own[m] >= from
  }

  lemma NoneFired(ts: seq<Task>, st: seq<Step>, n: nat, a: Step, from: nat)
    requires from <= n < |st| && st[n] == a && !a.Fired?
    ensures AllSince([n], from) && AllSettled(ts, st, [n])
  {
  }

  lemma NoneYet(ts: seq<Task>, st: seq<Step>, from: nat)
    ensures AllSince([], from) && AllSettled(ts, st, [])
  {
  }

  lemma SettledAll(ts: seq<Task>, st: seq<Step>, n: nat, f: nat, more: seq<nat>, k: nat, swap: Step, from: nat, from': nat)
    requires from <= n < |st| && st[n] == swap && !swap.Fired? && from <= f < |st| && st[f] == Fired(k) && Settled(ts, k)
    requires from <= from' && AllSince(more, from') && AllSettled(ts, st, more)
    ensures AllSince([n, f] + more, from) && AllSettled(ts, st, [n, f] + more)
  {
    AllSettledMore(ts, st, [n, f], more);
  }

  lemma SettledRest(ts: seq<Task>, st: seq<Step>, d: nat, c: nat, more: seq<nat>, k: nat, from: nat, from': nat)
    requires from <= d < |st| && st[d] == Decrement(k) && from <= c < |st| && st[c] == Check(k)
    requires from <= from' && AllSince(more, from') && AllSettled(ts, st, more)
    ensures AllSince([d, c] + more, from) && AllSettled(ts, st, [d, c] + more)
  {
    AllSettledMore(ts, st, [d, c], more);
  }

  lemma IsSettled(ts: seq<Task>, k: nat)
    requires k < |ts| && ts[k].phase == Complete && ts[k].up == Done
    ensures Settled(ts, k)
  {
  }

  lemma SettledIsReleased(ts: seq<Task>, k: nat)
    requires Settled(ts, k)
    ensures Released(ts, k)
  {
  }

  lemma ReleasedIn(ts: seq<Task>, k: nat)
    requires Released(ts, k)
    ensures k < |ts|
  {
  }

  lemma CountedHere(tr: seq<seq<Task>>, st: seq<Step>, n: nat, k: nat)
    requires At(tr, st, n, Decrement(k))
    ensures n < |st| && n < |tr| && st[n] == Decrement(k) && HasParent(tr[n], k) && tr[n][k].parent.value < |tr[n]|
  {
  }

  lemma TestedHere(tr: seq<seq<Task>>, st: seq<Step>, n: nat, k: nat)
    requires At(tr, st, n, Check(k))
    ensures n < |st| && n < |tr| && st[n] == Check(k) && HasParent(tr[n], k) && tr[n][k].parent.value < |tr[n]|
  {
  }

  lemma FiredHere(tr: seq<seq<Task>>, st: seq<Step>, n: nat, k: nat)
    requires At(tr, st, n, Fired(k))
    ensures n < |st| && n < |tr| && st[n] == Fired(k) && k < |tr[n]|
  {
  }

  lemma SwappedHere(tr: seq<seq<Task>>, st: seq<Step>, n: nat, swap: Step)
    requires At(tr, st, n, swap)
    ensures n < |st| && n < |tr| && st[n] == swap && Enabled(tr[n], swap)
  {
  }

  lemma MaySwap(ts: seq<Task>, k: nat)
    requires HasParent(ts, k) && ts[k].up == Swapping
    ensures Enabled(ts, UpSwap(k)) && k < |ts| && ts[k].parent.value < k
  {
  }

  lemma {:induction false} GoesUpNone(tr: seq<seq<Task>>, st: seq<Step>, k: nat)
    ensures GoesUp(tr, st, [], k, None)
  {
  }

  lemma AllSettledMore(ts: seq<Task>, st: seq<Step>, own: seq<nat>, more: seq<nat>)
    requires AllSettled(ts, st, own) && AllSettled(ts, st, more)
    ensures AllSettled(ts, st, own + more)
  {
    forall m | 0 <= m < |own + more| && (own + more)[m] < |st| && st[(own + more)[m]].Fired?
      ensures Settled(ts, st[(own + more)[m]].k)
    {
      if m < |own| { assert (own + more)[m] == own[m]; } else { assert (own + more)[m] == more[m - |own|]; }
    }
  }

  /** The end of execute_task: EXECUTED, the test of the counter, and release_task when it
      was zero. */
  ghost predicate Ends(tr: seq<seq<Task>>, st: seq<Step>, own: seq<nat>, k: nat) {
    && |own| > 1 && own[0] < own[1] && At(tr, st, own[0], EndBody(k)) && At(tr, st, own[1], Test(k))
    && if tr[own[1]][k].children > 0 then |own| == 2
       else |own| > 2 && Climbs(tr, st, own[2..], k, OwnSwap(k))
  }

  lemma TestHere(tr: seq<seq<Task>>, st: seq<Step>, n: nat, k: nat)
    requires At(tr, st, n, Test(k))
    ensures n < |st| && n < |tr| && st[n] == Test(k) && k < |tr[n]|
  {
  }

  lemma {:induction false} EndsBy(ts: seq<Task>, tr: seq<seq<Task>>, st: seq<Step>, e: nat, t: nat, more: seq<nat>, k: nat, from: nat, from': nat)
    requires from <= e < t && At(tr, st, e, EndBody(k)) && At(tr, st, t, Test(k))
    requires from <= from' && AllSince(more, from') && AllSettled(ts, st, more) && t < from'
    requires if tr[t][k].children > 0 then more == [] else Climbs(tr, st, more, k, OwnSwap(k))
    ensures Ends(tr, st, [e, t] + more, k) && AllSince([e, t] + more, from) && AllSettled(ts, st, [e, t] + more)
  {
    AllSettledMore(ts, st, [e, t], more);
    ClimbsSome(tr, st, more, k, OwnSwap(k));
    assert ([e, t] + more)[2..] == more;
    hide Climbs, Enabled;
  }

  lemma {:induction false} ClimbsSome(tr: seq<seq<Task>>, st: seq<Step>, own: seq<nat>, k: nat, swap: Step)
    ensures Climbs(tr, st, own, k, swap) ==> own != []
  {
  }

  lemma SettledKept(ts: seq<Task>, a: Step, k: nat)
    requires ShapeOk(ts) && Enabled(ts, a) && Settled(ts, k)
    ensures Settled(Do(ts, a), k)
  {
    assert PhaseOk(ts[k]);
  }

  // ---- every step of a task at most once -----------------------------------------

  function PhaseRank(t: Task): nat {
    match t.phase case Waiting => 0 case Running => 1 case Executed => 2 case Releasing => 3 case Complete => 4
  }

  function OwnRank(t: Task): nat {
    match t.own case Body => 0 case AtTest => 1 case AtSwap => 2 case Over => 3
  }

  function UpRank(t: Task): nat {
    match t.up case NotYet => 0 case Decrementing => 1 case Checking => 2 case Swapping => 3 case Done => 4
  }

  /** Step a has been taken. */
  predicate Spent(ts: seq<Task>, a: Step)
    requires !a.Call?
  {
    && a.k < |ts|
    && match a
       case Begin(k) => PhaseRank(ts[k]) > 0
       case EndBody(k) => PhaseRank(ts[k]) > 1
       case Test(k) => OwnRank(ts[k]) > 1
       case OwnSwap(k) => OwnRank(ts[k]) > 2
       case Fired(k) => PhaseRank(ts[k]) > 3
       case Decrement(k) => UpRank(ts[k]) > 1
       case Check(k) => UpRank(ts[k]) > 2
       case UpSwap(k) => UpRank(ts[k]) > 3
       case DecrementAndCheck(k) => UpRank(ts[k]) > 1
  }

  /** A task only moves on. */
  predicate Onward(t: Task, t': Task) {
    PhaseRank(t) <= PhaseRank(t') && OwnRank(t) <= OwnRank(t') && UpRank(t) <= UpRank(t')
  }

  lemma StepOnward(ts: seq<Task>, b: Step, k: nat)
    requires ShapeOk(ts) && Enabled(ts, b) && k < |ts|
    ensures k < |Do(ts, b)| && Onward(ts[k], Do(ts, b)[k])
  {
    if !b.Call? { assert PhaseOk(ts[b.k]); }
  }

  lemma SpentAfter(ts: seq<Task>, a: Step)
    requires Enabled(ts, a) && !a.Call?
    ensures Spent(Do(ts, a), a)
  {
  }

  lemma SpentStays(ts: seq<Task>, a: Step, b: Step)
    requires ShapeOk(ts) && !a.Call? && Spent(ts, a) && Enabled(ts, b)
    ensures Spent(Do(ts, b), a)
  {
    StepOnward(ts, b, a.k);
    hide ShapeOk, Enabled, Do, PhaseRank, OwnRank, UpRank;
  }

  lemma SpentIsOver(ts: seq<Task>, a: Step)
    requires ShapeOk(ts) && !a.Call? && Spent(ts, a)
    ensures !Enabled(ts, a)
  {
    assert PhaseOk(ts[a.k]);
  }

  lemma {:induction false} SpentLater(tr: seq<seq<Task>>, st: seq<Step>, m: nat, n: nat)
    requires IsRun(tr, st) && m < n <= |st| && !st[m].Call?
    ensures |tr| == |st| + 1 && Spent(tr[n], st[m])
    decreases n
  {
    hide IsRun, Enabled, Do, Spent, ShapeOk, Inv;
    RunStep(tr, st, n - 1);
    if n == m + 1 {
      SpentAfter(tr[m], st[m]);
    } else {
      SpentLater(tr, st, m, n - 1);
      RunKeeps(tr, st, n - 1);
      ShapeOf(tr[n - 1]);
      SpentStays(tr[n - 1], st[m], st[n - 1]);
    }
  }

  /** In a run no step but a call is taken twice: what a thread has done for one task, it
      and nobody else has done, once. */
  lemma TakenOnce(tr: seq<seq<Task>>, st: seq<Step>, m: nat, n: nat)
    requires IsRun(tr, st) && m < |st| && n < |st| && st[m] == st[n] && !st[m].Call?
    ensures m == n
  {
    hide IsRun, Enabled, Do, Spent, ShapeOk, Inv;
    if m != n {
      var lo, hi := if m < n then m else n, if m < n then n else m;
      SpentLater(tr, st, lo, hi);
      RunStep(tr, st, hi);
      RunKeeps(tr, st, hi);
      ShapeOf(tr[hi]);
      SpentIsOver(tr[hi], st[lo]);
    }
  }

  class TaskTree {
    var tasks: seq<Task>
    var schedule: seq<seq<Step>>  // what the other threads do, burst by burst
    ghost var trace: seq<seq<Task>>
    ghost var steps: seq<Step>

    /** The history is a run and ends in the present state. */
    ghost predicate Valid()
      reads this
    {
      |trace| == |steps| + 1 && IsRun(trace, steps) && trace[|steps|] == tasks
    }

    ghost predicate GoesOn(tr: seq<seq<Task>>, st: seq<Step>)
      reads this
    {
      tr <= trace && st <= steps
    }

    constructor (schedule: seq<seq<Step>>)
      ensures Valid() && tasks == [MAIN]
    {
      this.schedule := schedule;
      tasks, trace, steps := [MAIN], [[MAIN]], [];
    }

    lemma Known()
      requires Valid()
      ensures Inv(tasks) && ShapeOk(tasks)
    {
      RunKeeps(trace, steps, |steps|);
    }

    /** One more step of the history. */
    ghost method Record(v: seq<Task>, a: Step)
      requires |trace| == |steps| + 1 && IsRun(trace, steps) && trace[|steps|] == v
      requires Enabled(v, a) && tasks == Do(v, a)
      modifies this`trace, this`steps
      ensures Valid() && steps == old(steps) + [a] && trace == old(trace) + [tasks]
    {
      hide Enabled, Do;
      forall i | 0 <= i < |steps + [a]| ensures Took((trace + [tasks])[i], (steps + [a])[i], (trace + [tasks])[i + 1]) {
        if i < |steps| { assert Took(trace[i], steps[i], trace[i + 1]); }
      }
      trace := trace + [tasks];
      steps := steps + [a];
    }

    /** The other threads take the steps of the next burst that they can take. */
    method Others(who: Who)
      requires Valid() && who.k < |tasks|
      modifies this
      ensures Valid() && GoesOn(old(trace), old(steps)) && Keeps(who, old(tasks), tasks)
      ensures Inv(tasks) && ShapeOk(tasks)
    {
      hide Enabled, Do, IsRun, Inv, ShapeOk;
      Known();
      if schedule == [] { return; }
      var burst := schedule[0];
      schedule := schedule[1..];
      for i := 0 to |burst|
        invariant Valid() && GoesOn(old(trace), old(steps)) && Keeps(who, old(tasks), tasks)
        invariant Inv(tasks) && ShapeOk(tasks)
      {
        if Enabled(tasks, burst[i]) && !Mine(who, burst[i]) {
          ghost var v := tasks;
          RivalKeeps(who, tasks, burst[i]);
          tasks := Do(tasks, burst[i]);
          Record(v, burst[i]);
          Known();
        }
      }
    }

    /** The compare-and-swap of release_task on task k: `swap` says whose it is. */
    method SwapStatus(k: nat, swap: Step) returns (won: bool)
      requires Valid() && k < |tasks| && Enabled(tasks, swap)
      requires swap == OwnSwap(k) || (swap.UpSwap? && tasks[swap.k].parent == Some(k))
      modifies this
      ensures Valid() && GoesOn(old(trace), old(steps)) && k < |tasks|
      ensures |steps| > |old(steps)| && At(trace, steps, |steps| - 1, swap) && won == Wins(trace[|steps| - 1], swap, k)
      ensures won ==> tasks[k].phase == Releasing && tasks[k].up == NotYet
      ensures swap.UpSwap? ==> Settled(tasks, swap.k)
      ensures swap.OwnSwap? ==> Released(tasks, k)
    {
      hide IsRun, Inv, ShapeOk;
      Others(if swap.OwnSwap? then Runner(k) else Releaser(swap.k));
      ghost var v := tasks;
      EndedTask(tasks, k);
      if swap.UpSwap? { UpMeansComplete(tasks, swap.k); }
      won := tasks[k].phase == Executed;
      if won { tasks := tasks[k := tasks[k].(phase := Releasing)]; }
      if swap.OwnSwap? {
        tasks := tasks[k := tasks[k].(own := Over)];
      } else {
        tasks := tasks[swap.k := tasks[swap.k].(up := Done)];
      }
      assert tasks == Do(v, swap);
      Record(v, swap);
    }

    lemma UpMeansComplete(ts: seq<Task>, k: nat)
      requires ShapeOk(ts) && k < |ts| && ts[k].up != NotYet
      ensures ts[k].phase == Complete
    {
      assert PhaseOk(ts[k]);
    }

    lemma HasParentIs(ts: seq<Task>, k: nat)
      requires HasParent(ts, k)
      ensures k < |ts| && ts[k].parent.Some? && ts[k].parent.value < k
    {
    }

    lemma GoesOnIs(tr: seq<seq<Task>>, st: seq<Step>)
      requires GoesOn(tr, st)
      ensures tr <= trace && st <= steps
    {
    }

    lemma EndedTask(ts: seq<Task>, k: nat)
      requires ShapeOk(ts) && k < |ts|
      ensures ts[k].own == AtSwap || ts[k].own == AtTest ==> ts[k].phase == Executed || Released(ts, k)
      ensures ts[k].phase == Executed ==> ts[k].up == NotYet
    {
      assert PhaseOk(ts[k]);
    }

    /** fire_dependencies, which ends in COMPLETE. */
    method Fire(k: nat)
      requires Valid() && k < |tasks| && tasks[k].phase == Releasing
      modifies this
      ensures Valid() && GoesOn(old(trace), old(steps)) && k < |tasks|
      ensures |steps| > |old(steps)| && At(trace, steps, |steps| - 1, Fired(k)) && trace[|steps| - 1][k].parent == tasks[k].parent
      ensures tasks[k].phase == Complete && tasks[k].up == if tasks[k].parent == None then Done else Decrementing
    {
      hide IsRun, Inv, ShapeOk;
      Others(Releaser(k));
      ghost var v := tasks;
      tasks := tasks[k := tasks[k].(phase := Complete, up := if tasks[k].parent == None then Done else Decrementing)];
      Record(v, Fired(k));
    }

    /** The atomic decrement of the parent's counter, and its new value. */
    method DecrementParent(k: nat) returns (children: nat)
      requires Valid() && HasParent(tasks, k) && tasks[k].up == Decrementing
      modifies this
      ensures Valid() && GoesOn(old(trace), old(steps)) && HasParent(tasks, k) && tasks[k].parent == old(tasks[k].parent)
      ensures |steps| > |old(steps)| && At(trace, steps, |steps| - 1, Decrement(k))
      ensures trace[|steps| - 1][k].parent == tasks[k].parent && children == trace[|steps| - 1][tasks[k].parent.value].children - 1
      ensures tasks[k].phase == Complete && tasks[k].up == if children == 0 then Checking else Done
    {
      hide IsRun, Inv, ShapeOk;
      Others(Releaser(k));
      ghost var v := tasks;
      UpMeansComplete(tasks, k);
      CounterPositive(tasks, k);
      var p := tasks[k].parent.value;
      children := tasks[p].children - 1;
      tasks := tasks[p := tasks[p].(children := children)];
      tasks := tasks[k := tasks[k].(up := if children == 0 then Checking else Done)];
      Record(v, Decrement(k));
    }

    /** The test of the parent's status. */
    method ParentExecuted(k: nat) returns (executed: bool)
      requires Valid() && HasParent(tasks, k) && tasks[k].up == Checking
      modifies this
      ensures Valid() && GoesOn(old(trace), old(steps)) && HasParent(tasks, k) && tasks[k].parent == old(tasks[k].parent)
      ensures |steps| > |old(steps)| && At(trace, steps, |steps| - 1, Check(k)) && trace[|steps| - 1][k].parent == tasks[k].parent
      ensures executed == (trace[|steps| - 1][tasks[k].parent.value].phase == Executed)
      ensures tasks[k].phase == Complete && tasks[k].up == if executed then Swapping else Done
    {
      hide IsRun, Inv, ShapeOk;
      Others(Releaser(k));
      ghost var v := tasks;
      UpMeansComplete(tasks, k);
      executed := tasks[tasks[k].parent.value].phase == Executed;
      tasks := tasks[k := tasks[k].(up := if executed then Swapping else Done)];
      Record(v, Check(k));
    }

    /** release_task, which may go on with the parent: `own` numbers the thread's own steps.
        A task that calls it for itself is released when it returns, by this thread or by
        another; and every task that this call has released is COMPLETE and done with. */
    method ReleaseTask(k: nat, swap: Step) returns (ghost own: seq<nat>)
      requires Valid() && k < |tasks| && Enabled(tasks, swap)
      requires swap == OwnSwap(k) || (swap.UpSwap? && tasks[swap.k].parent == Some(k))
      modifies this
      ensures Valid() && old(trace) <= trace && old(steps) <= steps && (swap.OwnSwap? ==> Released(tasks, k))
      ensures Climbs(trace, steps, own, k, swap) && AllSince(own, |old(steps)|) && AllSettled(tasks, steps, own)
      ensures swap.UpSwap? ==> Settled(tasks, swap.k)
      decreases k, 1
    {
      hide *;
      var won := SwapStatus(k, swap);
      GoesOnIs(old(trace), old(steps));
      ghost var n := |steps| - 1;
      SwappedHere(trace, steps, n, swap);
      if !won {
        own := [n];
        ClimbsLost(trace, steps, n, k, swap);
        NoneFired(tasks, steps, n, swap, |old(steps)|);
        return;
      }
      ghost var tr, st := trace, steps;
      ValidIs();
      Fire(k);
      GoesOnIs(tr, st);
      AtStays(tr, st, trace, steps, n, swap);
      ghost var f, more := |steps| - 1, [];
      FiredHere(trace, steps, f, k);
      Known();
      ParentEarlier(tasks, k);
      ghost var tr1, st1 := trace, steps;
      NoneYet(tasks, steps, |st1|);
      if tasks[k].parent != None {
        more := ReleaseParent(k);
      } else {
        GoesUpNone(trace, steps, k);
        IsSettled(tasks, k);
      }
      AtStays(tr1, st1, trace, steps, n, swap);
      AtStays(tr1, st1, trace, steps, f, Fired(k));
      FiredHere(trace, steps, f, k);
      ClimbsWon(trace, steps, n, f, more, k, swap);
      own := [n, f] + more;
      SettledIsReleased(tasks, k);
      ValidIs();
      if swap.UpSwap? { SettledStays(tr, st, trace, steps, swap.k); }
      SettledAll(tasks, steps, n, f, more, k, swap, |old(steps)|, |st1|);
    }

    /** What follows the release of k: its parent has one child less. */
    method ReleaseParent(k: nat) returns (ghost own: seq<nat>)
      requires Valid() && HasParent(tasks, k) && tasks[k].up == Decrementing && tasks[k].phase == Complete
      modifies this
      ensures Valid() && old(trace) <= trace && old(steps) <= steps && Settled(tasks, k)
      ensures GoesUp(trace, steps, own, k, old(tasks[k].parent)) && AllSince(own, |old(steps)|) && AllSettled(tasks, steps, own)
      decreases k, 0
    {
      hide *;
      HasParentIs(tasks, k);
      var p := tasks[k].parent.value;
      ghost var from := |steps|;
      var children := DecrementParent(k);
      GoesOnIs(old(trace), old(steps));
      HasParentIs(tasks, k);
      ghost var d := |steps| - 1;
      CountedHere(trace, steps, d, k);
      if children != 0 {
        own := [d];
        GoesUpOne(trace, steps, d, k, p);
        NoneFired(tasks, steps, d, Decrement(k), from);
        IsSettled(tasks, k);
        return;
      }
      ghost var tr, st := trace, steps;
      var executed := ParentExecuted(k);
      HasParentIs(tasks, k);
      GoesOnIs(tr, st);
      AtStays(tr, st, trace, steps, d, Decrement(k));
      ghost var c, more := |steps| - 1, [];
      TestedHere(trace, steps, c, k);
      tr, st := trace, steps;
      NoneYet(tasks, steps, |st|);
      if executed {
        MaySwap(tasks, k);
        more := ReleaseTask(p, UpSwap(k));
        AtStays(tr, st, trace, steps, d, Decrement(k));
        AtStays(tr, st, trace, steps, c, Check(k));
      } else {
        IsSettled(tasks, k);
      }
      GoesUpMore(trace, steps, d, c, more, k, p);
      own := [d, c] + more;
      SettledRest(tasks, steps, d, c, more, k, from, |st|);
    }
    lemma ParentEarlier(ts: seq<Task>, k: nat)
      requires ShapeOk(ts) && k < |ts|
      ensures ts[k].parent.Some? ==> HasParent(ts, k)
    {
    }

    lemma {:induction false} SettledStays(tr: seq<seq<Task>>, st: seq<Step>, tr': seq<seq<Task>>, st': seq<Step>, k: nat)
      requires IsRun(tr', st') && tr <= tr' && st <= st' && |tr| == |st| + 1 && |tr'| == |st'| + 1 && Settled(tr[|st|], k)
      ensures Settled(tr'[|st'|], k)
      decreases |st'| - |st|
    {
      assert tr'[|st|] == tr[|st|];
      if |st| < |st'| {
        hide IsRun, Inv, Enabled, Do, Settled, ShapeOk;
        var n := |st|;
        RunKeeps(tr', st', n);
        RunStep(tr', st', n);
        ShapeOf(tr'[n]);
        SettledKept(tr'[n], st'[n], k);
        SettledStays(tr'[..n + 2], st'[..n + 1], tr', st', k);
      }
    }

    lemma ValidIs()
      requires Valid()
      ensures |trace| == |steps| + 1 && IsRun(trace, steps) && trace[|steps|] == tasks
    {
    }

    /** The end of execute_task: EXECUTED, the test of the counter, and the release. */
    method ExecuteEnd(k: nat) returns (ghost own: seq<nat>)
      requires Valid() && k < |tasks| && tasks[k].phase == Running
      modifies this
      ensures Valid() && old(trace) <= trace && old(steps) <= steps && k < |tasks|
      ensures Ends(trace, steps, own, k) && AllSince(own, |old(steps)|) && AllSettled(tasks, steps, own)
      ensures Released(tasks, k) || (exists n :: |old(steps)| <= n < |trace| && k < |trace[n]| && trace[n][k].children > 0)
    {
      hide *;
      ghost var from := |steps|;
      EndTheBody(k);
      GoesOnIs(old(trace), old(steps));
      ghost var e, tr, st := |steps| - 1, trace, steps;
      var some := TestChildren(k);
      GoesOnIs(tr, st);
      AtStays(tr, st, trace, steps, e, EndBody(k));
      ghost var t, more := |steps| - 1, [];
      TestHere(trace, steps, t, k);
      tr, st := trace, steps;
      NoneYet(tasks, steps, |st|);
      if !some {
        more := ReleaseTask(k, OwnSwap(k));
        ReleasedIn(tasks, k);
        AtStays(tr, st, trace, steps, e, EndBody(k));
        AtStays(tr, st, trace, steps, t, Test(k));
      }
      own := [e, t] + more;
      EndsBy(tasks, trace, steps, e, t, more, k, from, |st|);
    }

    /** The store of EXECUTED. */
    method EndTheBody(k: nat)
      requires Valid() && k < |tasks| && tasks[k].phase == Running
      modifies this
      ensures Valid() && GoesOn(old(trace), old(steps)) && k < |tasks| && tasks[k].own == AtTest
      ensures |steps| > |old(steps)| && At(trace, steps, |steps| - 1, EndBody(k))
    {
      hide IsRun, Inv, ShapeOk;
      Others(Runner(k));
      ghost var v := tasks;
      tasks := tasks[k := tasks[k].(phase := Executed, own := AtTest)];
      Record(v, EndBody(k));
    }

    /** The test of the counter. */
    method TestChildren(k: nat) returns (some: bool)
      requires Valid() && k < |tasks| && tasks[k].own == AtTest
      modifies this
      ensures Valid() && GoesOn(old(trace), old(steps)) && k < |tasks|
      ensures |steps| > |old(steps)| && At(trace, steps, |steps| - 1, Test(k))
      ensures k < |trace[|steps| - 1]| && some == (trace[|steps| - 1][k].children > 0) && (!some ==> Enabled(tasks, OwnSwap(k)))
    {
      hide IsRun, Inv, ShapeOk;
      Others(Runner(k));
      ghost var v := tasks;
      some := tasks[k].children > 0;
      tasks := tasks[k := tasks[k].(own := if some then Over else AtSwap)];
      Record(v, Test(k));
    }
  }
}
