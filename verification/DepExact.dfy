/** Exactly when two siblings are ordered: between two calls, a later sibling can be
    made to wait for an earlier one in every continuation if and only if the stacks
    say so already.  Nothing is assumed about argument lists here. */
module DepExact {
  import opened DepMachine
  import opened DepCount
  import opened DepOrder
  import opened DepProgress

  // ---- what the stacks say stays said ----------------------------------------

  lemma {:induction false} ContinuesKeeps(s: State, tr: seq<State>, steps: seq<Step>, m: nat)
    requires WF(s) && CountInv(s) && Continues(s, tr, steps) && m < |tr|
    ensures WF(tr[m]) && CountInv(tr[m])
  {
    hide *;
    ContinuesFrom(s, tr, steps);
    if m > 0 {
      ContinuesAt(s, tr, steps, m - 1);
      ContinuesKeeps(s, tr, steps, m - 1);
      StepKeeps(tr[m - 1], steps[m - 1]);
    }
  }

  lemma ContinuesFrom(s: State, tr: seq<State>, steps: seq<Step>)
    requires Continues(s, tr, steps)
    ensures |tr| == |steps| + 1 && tr[0] == s
  {
  }

  lemma ContinuesAt(s: State, tr: seq<State>, steps: seq<Step>, m: nat)
    requires Continues(s, tr, steps) && m < |steps|
    ensures |tr| == |steps| + 1 && WF(tr[m]) && Enabled(tr[m], steps[m]) && tr[m + 1] == Do(tr[m], steps[m])
  {
    hide WF, Enabled, Do;
    assert Next(tr[m], steps[m], tr[m + 1]);
  }

  lemma {:induction false} SafeStays(s: State, tr: seq<State>, steps: seq<Step>, i: nat, j: nat, m: nat)
    requires WF(s) && CountInv(s) && Continues(s, tr, steps) && m < |tr|
    requires i < |s.tasks| && j < |s.tasks| && Safe(s.tasks, i, j)
    ensures i < |tr[m].tasks| && j < |tr[m].tasks| && Safe(tr[m].tasks, i, j)
  {
    hide *;
    ContinuesFrom(s, tr, steps);
    if m > 0 {
      SafeStays(s, tr, steps, i, j, m - 1);
      ContinuesKeeps(s, tr, steps, m - 1);
      ContinuesAt(s, tr, steps, m - 1);
      StepFacts(tr[m - 1]);
      StepGrows(tr[m - 1], steps[m - 1]);
      GrowsLonger(tr[m - 1].tasks, tr[m].tasks);
      SafeGrows(tr[m - 1].tasks, tr[m].tasks, i, j);
    }
  }

  // ---- what they do not say can go wrong --------------------------------------

  /** Releasing threads push on no stack. */
  ghost predicate NoPushes(ts: seq<Task>, ts': seq<Task>) {
    |ts'| == |ts| && forall k :: 0 <= k < |ts| ==> forall x <- ts'[k].notify :: x in ts[k].notify
  }

  lemma AgentPushesNone(s: State, a: Step)
    requires WF(s) && Enabled(s, a) && !ByParent(a)
    ensures NoPushes(s.tasks, Do(s, a).tasks)
  {
    if a.PopFront? || a.Steal? {
      assert Within(s.deques[a.d], 0, |s.tasks|);
      hide WF;
    } else if a.Fire? || a.Swap? || a.Enqueue? {
      HandPushesNone(s, a);
    } else {
      hide WF;
    }
  }

  lemma HandPushesNone(s: State, a: Step)
    requires WF(s) && Enabled(s, a) && (a.Fire? || a.Swap? || a.Enqueue?)
    ensures NoPushes(s.tasks, Do(s, a).tasks)
  {
    assert TaskOk(s.tasks[a.k], a.k, |s.tasks|);
    hide WF;
  }

  lemma {:induction false} SafeComesBack(ts: seq<Task>, ts': seq<Task>, i: nat, j: nat)
    requires NoPushes(ts, ts') && i < |ts| && j < |ts| && !Released(ts'[i]) && Safe(ts', i, j)
    ensures Safe(ts, i, j)
    decreases j
  {
    var k: nat :| k < j && j in ts'[k].notify && (k == i || Safe(ts', i, k));
    if k != i { SafeComesBack(ts, ts', i, k); }
  }

  lemma HandReleasesNone(s: State, a: Step, i: nat)
    requires WF(s) && Enabled(s, a) && (a.Fire? || a.Swap? || a.Enqueue?) && i < |s.tasks|
    ensures i < |Do(s, a).tasks| && (Released(Do(s, a).tasks[i]) ==> Released(s.tasks[i]))
  {
    assert TaskOk(s.tasks[a.k], a.k, |s.tasks|);
    hide WF;
  }

  lemma QueueReleasesNone(s: State, a: Step, i: nat)
    requires WF(s) && Enabled(s, a) && (a.PopFront? || a.Steal?) && i < |s.tasks|
    ensures i < |Do(s, a).tasks| && (Released(Do(s, a).tasks[i]) ==> Released(s.tasks[i]))
  {
    assert Within(s.deques[a.d], 0, |s.tasks|);
    hide WF;
  }

  lemma OwnReleasesOne(s: State, a: Step, i: nat)
    requires WF(s) && Enabled(s, a) && !ByParent(a) && i < |s.tasks|
    requires !(a.PopFront? || a.Steal? || a.Fire? || a.Swap? || a.Enqueue?) && !(a.Release? && a.k == i)
    ensures i < |Do(s, a).tasks| && (Released(Do(s, a).tasks[i]) ==> Released(s.tasks[i]))
  {
    hide WF;
  }

  lemma OnlyRelease(s: State, a: Step, i: nat)
    requires WF(s) && Enabled(s, a) && !ByParent(a) && i < |s.tasks| && !Released(s.tasks[i])
    requires !(a.Release? && a.k == i)
    ensures i < |Do(s, a).tasks| && !Released(Do(s, a).tasks[i])
  {
    hide WF, Enabled, Do, Released;
    if a.Fire? || a.Swap? || a.Enqueue? { HandReleasesNone(s, a, i); }
    else if a.PopFront? || a.Steal? { QueueReleasesNone(s, a, i); }
    else { OwnReleasesOne(s, a, i); }
  }

  /** The first task that is incomplete although it does not wait for i. */
  ghost predicate BehindOnly(ts: seq<Task>, i: nat, k: nat)
    requires i < |ts|
  {
    k <= |ts| && forall y: nat :: y < k && y != i && !Safe(ts, i, y) ==> ts[y].status == Complete
  }

  lemma {:induction false} FirstFree(ts: seq<Task>, i: nat, n: nat) returns (k: nat)
    requires i < |ts| && n <= |ts|
    ensures k <= n && BehindOnly(ts, i, k)
    ensures k < n ==> k != i && !Safe(ts, i, k) && ts[k].status != Complete
  {
    hide Safe;
    if n == 0 {
      k := 0;
    } else {
      k := FirstFree(ts, i, n - 1);
      if k == n - 1 && (k == i || Safe(ts, i, k) || ts[k].status == Complete) { k := n; }
    }
  }

  /** Tasks before it are over, or wait for i and have nothing to say. */
  lemma {:induction false} FreeIsSilent(ts: seq<Task>, i: nat, k: nat)
    requires PhasesOk(ts) && HeldBack(ts) && i < |ts| && !Released(ts[i])
    requires BehindOnly(ts, i, k) && k < |ts| && !Safe(ts, i, k)
    ensures SilentTo(ts, k)
  {
    forall y | 0 <= y < k ensures Silent(ts[y], k) {
      assert PhaseOk(ts[y]);
      if y != i && ts[y].status != Complete {
        assert Safe(ts, i, y);
        if Started(ts[y]) { SafeStarted(ts, i, y); }
      }
    }
  }

  lemma FreeCanMove(s: State, i: nat, j: nat) returns (a: Step)
    requires WF(s) && CountInv(s) && s.pc == Idle && s.deques != [] && i < |s.tasks| && j < |s.tasks|
    requires i != j && !Safe(s.tasks, i, j) && !Released(s.tasks[i]) && s.tasks[j].status != Complete
    ensures Enabled(s, a) && !ByParent(a) && !(a.Release? && a.k == i)
  {
    StepFacts(s);
    hide Safe, WF, CountInv, HeldBack, Enabled;
    var k := FirstFree(s.tasks, i, |s.tasks|);
    FreeIsSilent(s.tasks, i, k);
    a := TaskCanMove(s, k);
  }

  lemma {:induction false} SafeReleased(ts: seq<Task>, i: nat, j: nat)
    requires i < |ts| && j < |ts| && Released(ts[i])
    ensures Safe(ts, i, j)
  {
  }

  /** One step that neither releases i nor orders it before j. */
  lemma {:induction false} FreeStep(s: State, a: Step, i: nat, j: nat)
    requires WF(s) && CountInv(s) && Enabled(s, a) && !ByParent(a) && !(a.Release? && a.k == i)
    requires i < |s.tasks| && j < |s.tasks| && !Safe(s.tasks, i, j) && !Released(s.tasks[i])
    ensures var s' := Do(s, a);
      && |s'.tasks| == |s.tasks| && s'.pc == s.pc && |s'.deques| == |s.deques|
      && !Released(s'.tasks[i]) && !Safe(s'.tasks, i, j)
  {
    hide WF, CountInv, Enabled, Do, Safe, Released;
    AgentPushesNone(s, a);
    AgentPc(s, a);
    DequeCount(s, a);
    OnlyRelease(s, a, i);
    if Safe(Do(s, a).tasks, i, j) { SafeComesBack(s.tasks, Do(s, a).tasks, i, j); }
  }

  lemma NotComplete(t: Task)
    requires !Started(t)
    ensures t.status != Complete
  {
  }

  lemma AgentDescends(s: State, a: Step)
    requires WF(s) && CountInv(s) && Enabled(s, a) && !ByParent(a)
    ensures AgentWork(Do(s, a)) < AgentWork(s)
  {
    hide WF, CountInv, Enabled, Do, AgentWork, ParentWork, WalkWork;
    StepLess(s, a);
    AgentOthers(s, a);
  }

  /** Holding task i back, everything that does not wait for it runs. */
  lemma {:induction false} Overtake(s: State, i: nat, j: nat) returns (tr: seq<State>, steps: seq<Step>)
    requires WF(s) && CountInv(s) && s.pc == Idle && s.deques != [] && i < |s.tasks| && j < |s.tasks|
    requires i != j && !Safe(s.tasks, i, j)
    ensures Continues(s, tr, steps) && |tr| == |steps| + 1 && (forall m :: 0 <= m < |steps| ==> !steps[m].Spawn?)
    ensures var ts := tr[|steps|].tasks; |ts| == |s.tasks| && Started(ts[j]) && !Released(ts[i])
    decreases AgentWork(s)
  {
    hide *;
    if Released(s.tasks[i]) { SafeReleased(s.tasks, i, j); }
    if Started(s.tasks[j]) {
      tr, steps := [s], [];
      StaysPut(s);
    } else {
      NotComplete(s.tasks[j]);
      var a := FreeCanMove(s, i, j);
      FreeStep(s, a, i, j);
      StepKeeps(s, a);
      AgentDescends(s, a);
      var tr1, steps1 := Overtake(Do(s, a), i, j);
      Prepend(s, a, tr1, steps1);
      tr, steps := [s] + tr1, [a] + steps1;
      NotSpawn(a);
    }
  }

  lemma StaysPut(s: State)
    ensures Continues(s, [s], [])
  {
  }

  lemma NotSpawn(a: Step)
    requires !ByParent(a)
    ensures !a.Spawn?
  {
  }

  // ---- the two together -------------------------------------------------------

  predicate Overtaken(ts: seq<Task>, i: nat, j: nat) {
    i < |ts| && j < |ts| && Started(ts[j]) && !Released(ts[i])
  }

  /** In no continuation does j start before i is released. */
  ghost predicate NeverOvertakes(s: State, i: nat, j: nat) {
    forall tr: seq<State>, steps: seq<Step>, m: nat :: Continues(s, tr, steps) && m < |tr| ==> !Overtaken(tr[m].tasks, i, j)
  }

  /** Between two calls of any run: task j never overtakes task i, whatever is called
      and scheduled from there on, if and only if i is released or j sits in a chain of
      stacks that leads back to i. */
  lemma {:induction false} OrderIsExact(threads: nat, past: seq<State>, before: seq<Step>, n: nat, i: nat, j: nat)
    requires threads > 0 && IsRun(threads, past, before) && n < |past|
    requires past[n].pc == Idle && i < j < |past[n].tasks|
    ensures NeverOvertakes(past[n], i, j) <==> Safe(past[n].tasks, i, j)
  {
    var s := past[n];
    RunKeeps(threads, past, before, n);
    ThreadsStay(threads, past, before, n);
    hide WF, CountInv, IsRun, Safe, Continues, Started, Released;
    if Safe(s.tasks, i, j) {
      forall tr: seq<State>, steps: seq<Step>, m: nat | Continues(s, tr, steps) && m < |tr|
        ensures !Overtaken(tr[m].tasks, i, j)
      {
        SafeStays(s, tr, steps, i, j, m);
        ContinuesKeeps(s, tr, steps, m);
        StepFacts(tr[m]);
        if Started(tr[m].tasks[j]) { SafeStarted(tr[m].tasks, i, j); }
      }
    } else {
      var tr, steps := Overtake(s, i, j);
      assert Overtaken(tr[|steps|].tasks, i, j);
    }
  }
}
