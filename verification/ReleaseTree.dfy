/** Hierarchical release (src/runtime.c): a task whose body has ended is released when
    its last child has been, by itself or by that child.

    One step per shared access.  What happens between tpc_call and the start of the
    body belongs to DepMachine; here a task is Waiting until then. */
module ReleaseTree {
  import opened Sums

  datatype Option<+T> = None | Some(value: T)

  datatype Phase = Waiting | Running | Executed | Releasing | Complete

  /** The thread that ran the body, after the store of EXECUTED. */
  datatype Own = Body | AtTest | AtSwap | Over

  /** The thread that released the task, on its way up to the parent: about to
      decrement, to look at the parent's status, or to swap it. */
  datatype Up = NotYet | Decrementing | Checking | Swapping | Done

  datatype Task = Task(parent: Option<nat>, phase: Phase, children: nat, own: Own, up: Up)

  datatype Step =
    | Call(p: nat) | Begin(k: nat) | EndBody(k: nat) | Test(k: nat) | OwnSwap(k: nat) | Fired(k: nat)
    | Decrement(k: nat) | Check(k: nat) | UpSwap(k: nat)
    | DecrementAndCheck(k: nat) // the two accesses of src/runtime.c:271-278 taken as one

  predicate HasParent(ts: seq<Task>, k: nat) {
    k < |ts| && ts[k].parent.Some? && ts[k].parent.value < k
  }

  predicate Enabled(ts: seq<Task>, a: Step) {
    match a
    case Call(p) => p < |ts| && ts[p].phase == Running
    case Begin(k) => k < |ts| && ts[k].phase == Waiting
    case EndBody(k) => k < |ts| && ts[k].phase == Running
    case Test(k) => k < |ts| && ts[k].own == AtTest
    case OwnSwap(k) => k < |ts| && ts[k].own == AtSwap
    case Fired(k) => k < |ts| && ts[k].phase == Releasing
    case Decrement(k) => HasParent(ts, k) && ts[k].up == Decrementing && ts[ts[k].parent.value].children > 0
    case Check(k) => HasParent(ts, k) && ts[k].up == Checking
    case UpSwap(k) => HasParent(ts, k) && ts[k].up == Swapping
    case DecrementAndCheck(k) => HasParent(ts, k) && ts[k].up == Decrementing && ts[ts[k].parent.value].children > 0
  }

  /** The compare-and-swap from EXECUTED to RELEASING. */
  function Swapped(t: Task): Task {
    if t.phase == Executed then t.(phase := Releasing) else t
  }

  /** Task k and its parent p change together. */
  function Both(ts: seq<Task>, k: nat, tk: Task, p: nat, tp: Task): seq<Task>
    requires k < |ts| && p < |ts|
  {
    ts[p := tp][k := tk]
  }

  function DoUp(ts: seq<Task>, a: Step): seq<Task>
    requires Enabled(ts, a) && (a.Decrement? || a.Check? || a.UpSwap? || a.DecrementAndCheck?)
  {
    var t := ts[a.k];
    var p := t.parent.value;
    var u := ts[p];
    match a
    case Decrement(k) =>
      Both(ts, k, t.(up := if u.children == 1 then Checking else Done), p, u.(children := u.children - 1))
    case Check(k) => ts[k := t.(up := if u.phase == Executed then Swapping else Done)]
    case UpSwap(k) => Both(ts, k, t.(up := Done), p, Swapped(u))
    case DecrementAndCheck(k) =>
      Both(ts, k, t.(up := if u.children == 1 && u.phase == Executed then Swapping else Done), p,
           u.(children := u.children - 1))
  }

  function DoOwn(ts: seq<Task>, a: Step): seq<Task>
    requires Enabled(ts, a) && !(a.Decrement? || a.Check? || a.UpSwap? || a.DecrementAndCheck?)
  {
    match a
    case Call(p) => ts[p := ts[p].(children := ts[p].children + 1)] + [Task(Some(p), Waiting, 0, Body, NotYet)]
    case Begin(k) => ts[k := ts[k].(phase := Running)]
    case EndBody(k) => ts[k := ts[k].(phase := Executed, own := AtTest)]
    case Test(k) => ts[k := ts[k].(own := if ts[k].children > 0 then Over else AtSwap)]
    case OwnSwap(k) => ts[k := Swapped(ts[k]).(own := Over)]
    case Fired(k) => ts[k := ts[k].(phase := Complete, up := if ts[k].parent == None then Done else Decrementing)]
  }

  function Do(ts: seq<Task>, a: Step): seq<Task>
    requires Enabled(ts, a)
  {
    if a.Decrement? || a.Check? || a.UpSwap? || a.DecrementAndCheck? then DoUp(ts, a) else DoOwn(ts, a)
  }

  // ---- the invariant --------------------------------------------------------

  /** Called and not decremented yet. */
  predicate Owes(t: Task, p: nat) { t.parent == Some(p) && (t.up == NotYet || t.up == Decrementing) }

  function Owing(ts: seq<Task>, p: nat): (v: seq<nat>)
    ensures |v| == |ts|
  {
    seq(|ts|, k requires 0 <= k < |ts| => if Owes(ts[k], p) then 1 else 0)
  }

  /** number_of_children counts the children called and not decremented. */
  ghost predicate CountOk(ts: seq<Task>) {
    forall p :: 0 <= p < |ts| ==> ts[p].children == Sum(Owing(ts, p))
  }

  predicate PhaseOk(t: Task) {
    && (t.phase == Waiting || t.phase == Running ==> t.own == Body)
    && (t.phase == Executed || t.phase == Releasing || t.phase == Complete ==> t.own != Body)
    && (t.phase == Complete <==> t.up != NotYet)
    && (t.phase == Waiting ==> t.children == 0)
    && (t.parent == None ==> t.up == NotYet || t.up == Done)
  }

  ghost predicate ShapeOk(ts: seq<Task>) {
    && (forall k :: 0 <= k < |ts| ==> PhaseOk(ts[k]))
    && (forall k :: 0 <= k < |ts| ==> ts[k].parent.Some? ==> HasParent(ts, k))
  }

  /** Somebody who saw a zero is on the way to task p. */
  predicate Coming(t: Task, p: nat) { t.parent == Some(p) && (t.up == Checking || t.up == Swapping) }

  ghost predicate Attended(ts: seq<Task>, p: nat)
    requires p < |ts|
  {
    ts[p].phase == Executed ==>
      ts[p].children > 0 || ts[p].own == AtTest || ts[p].own == AtSwap || exists c :: 0 <= c < |ts| && Coming(ts[c], p)
  }

  ghost predicate AllAttended(ts: seq<Task>) {
    forall p :: 0 <= p < |ts| ==> Attended(ts, p)
  }

  ghost predicate Inv(ts: seq<Task>) {
    CountOk(ts) && ShapeOk(ts) && AllAttended(ts)
  }

  // ---- every step keeps it --------------------------------------------------

  lemma OwingUpdate(ts: seq<Task>, k: nat, t: Task, p: nat)
    requires k < |ts|
    ensures Sum(Owing(ts[k := t], p)) + (if Owes(ts[k], p) then 1 else 0) == Sum(Owing(ts, p)) + (if Owes(t, p) then 1 else 0)
  {
    var x: nat := if Owes(t, p) then 1 else 0;
    assert Owing(ts[k := t], p) == Owing(ts, p)[k := x];
    SumUpdate(Owing(ts, p), k, x);
  }

  lemma OwingAppend(ts: seq<Task>, t: Task, p: nat)
    ensures Sum(Owing(ts + [t], p)) == Sum(Owing(ts, p)) + (if Owes(t, p) then 1 else 0)
  {
    var x: nat := if Owes(t, p) then 1 else 0;
    SumAppend(Owing(ts, p), Owing(ts + [t], p), x);
  }

  /** One task changes, but not what it owes. */
  lemma CountSame(ts: seq<Task>, k: nat, t: Task)
    requires CountOk(ts) && k < |ts| && t.children == ts[k].children && t.parent == ts[k].parent
    requires t.parent == None || (t.up == NotYet || t.up == Decrementing) == (ts[k].up == NotYet || ts[k].up == Decrementing)
    ensures CountOk(ts[k := t])
  {
    hide Sum;
    var ts' := ts[k := t];
    forall p | 0 <= p < |ts'| ensures ts'[p].children == Sum(Owing(ts', p)) { OwingUpdate(ts, k, t, p); }
  }

  /** Task k pays, and its parent's counter goes down. */
  lemma CountPaid(ts: seq<Task>, k: nat, tk: Task, p: nat, tp: Task)
    requires CountOk(ts) && k < |ts| && p < |ts| && k != p && ts[k].parent == Some(p) && tk.parent == Some(p)
    requires ts[k].up == Decrementing && tk.up != NotYet && tk.up != Decrementing && tk.children == ts[k].children
    requires ts[p].children > 0 && tp == ts[p].(children := ts[p].children - 1)
    ensures CountOk(Both(ts, k, tk, p, tp))
  {
    hide Sum;
    var ts' := Both(ts, k, tk, p, tp);
    forall q | 0 <= q < |ts| ensures ts'[q].children == Sum(Owing(ts', q)) {
      OwingUpdate(ts, p, tp, q);
      OwingUpdate(ts[p := tp], k, tk, q);
    }
  }

  lemma CallKeepsCount(ts: seq<Task>, p: nat)
    requires CountOk(ts) && ShapeOk(ts) && Enabled(ts, Call(p))
    ensures CountOk(Do(ts, Call(p)))
  {
    hide Sum;
    var u := ts[p].(children := ts[p].children + 1);
    var t := Task(Some(p), Waiting, 0, Body, NotYet);
    var ts' := Do(ts, Call(p));
    forall q | 0 <= q < |ts'| ensures ts'[q].children == Sum(Owing(ts', q)) {
      OwingUpdate(ts, p, u, q);
      OwingAppend(ts[p := u], t, q);
      if q == |ts| { NobodyOwes(ts, |ts|); }
    }
  }

  /** Nobody owes a task that does not exist yet. */
  lemma NobodyOwes(ts: seq<Task>, p: nat)
    requires ShapeOk(ts) && p >= |ts|
    ensures Sum(Owing(ts, p)) == 0
  {
    forall k | 0 <= k < |ts| ensures Owing(ts, p)[k] == 0 { assert ts[k].parent.Some? ==> HasParent(ts, k); }
    SumZero(Owing(ts, p), |ts|);
  }

  lemma CountKept(ts: seq<Task>, a: Step)
    requires CountOk(ts) && ShapeOk(ts) && Enabled(ts, a)
    ensures CountOk(Do(ts, a))
  {
    if a.Call? {
      CallKeepsCount(ts, a.p);
    } else {
      assert PhaseOk(ts[a.k]);
      hide CountOk, ShapeOk;
      if a.Decrement? || a.DecrementAndCheck? {
        var p := ts[a.k].parent.value;
        CountPaid(ts, a.k, Do(ts, a)[a.k], p, Do(ts, a)[p]);
      } else if a.UpSwap? {
        var p := ts[a.k].parent.value;
        CountSame(ts, p, Swapped(ts[p]));
        CountSame(ts[p := Swapped(ts[p])], a.k, Do(ts, a)[a.k]);
      } else {
        CountSame(ts, a.k, Do(ts, a)[a.k]);
      }
    }
  }

  lemma ShapeKept(ts: seq<Task>, a: Step)
    requires ShapeOk(ts) && Enabled(ts, a)
    ensures ShapeOk(Do(ts, a))
  {
    var ts' := Do(ts, a);
    if !a.Call? { assert PhaseOk(ts[a.k]); }
    forall k | 0 <= k < |ts'| ensures PhaseOk(ts'[k]) {
      if k < |ts| { assert PhaseOk(ts[k]); }
    }
    forall k | 0 <= k < |ts'| && ts'[k].parent.Some? ensures HasParent(ts', k) {
      if k < |ts| { assert ts[k].parent.Some? ==> HasParent(ts, k); }
    }
  }

  /** The source's assertion that the counter never goes below zero. */
  lemma CounterPositive(ts: seq<Task>, k: nat)
    requires Inv(ts) && HasParent(ts, k) && (ts[k].up == NotYet || ts[k].up == Decrementing)
    ensures ts[ts[k].parent.value].children > 0
  {
    hide AllAttended, ShapeOk;
    var p := ts[k].parent.value;
    SumAtLeast(Owing(ts, p), k, |ts|);
  }

  // ---- nobody is forgotten --------------------------------------------------

  lemma AttendedCall(ts: seq<Task>, p: nat, q: nat)
    requires AllAttended(ts) && Enabled(ts, Call(p)) && q < |ts|
    ensures Attended(Do(ts, Call(p)), q)
  {
    var ts' := Do(ts, Call(p));
    assert Attended(ts, q);
    if c :| 0 <= c < |ts| && Coming(ts[c], q) { assert Coming(ts'[c], q); }
  }

  /** A step of task k alone. */
  lemma AttendedOwn(ts: seq<Task>, a: Step, q: nat)
    requires ShapeOk(ts) && AllAttended(ts) && Enabled(ts, a) && q < |ts|
    requires a.Begin? || a.EndBody? || a.Test? || a.OwnSwap? || a.Fired? || a.Check?
    ensures Attended(Do(ts, a), q)
  {
    var ts' := Do(ts, a);
    assert Attended(ts, q) && PhaseOk(ts[a.k]);
    if c :| 0 <= c < |ts| && Coming(ts[c], q) {
      assert Coming(ts'[c], q) || ts[q].phase != Executed;
    }
  }

  lemma AttendedUp(ts: seq<Task>, a: Step, q: nat)
    requires ShapeOk(ts) && AllAttended(ts) && Enabled(ts, a) && q < |ts|
    requires a.Decrement? || a.UpSwap? || a.DecrementAndCheck?
    ensures Attended(Do(ts, a), q)
  {
    var ts' := Do(ts, a);
    assert Attended(ts, q);
    if ts[a.k].parent == Some(q) {
      if ts'[a.k].up == Checking || ts'[a.k].up == Swapping { assert Coming(ts'[a.k], q); }
      if c :| 0 <= c < |ts| && Coming(ts[c], q) {
        if c != a.k { assert Coming(ts'[c], q); }
      }
    } else if c :| 0 <= c < |ts| && Coming(ts[c], q) {
      assert Coming(ts'[c], q);
    }
  }

  lemma AttendedKept(ts: seq<Task>, a: Step)
    requires ShapeOk(ts) && AllAttended(ts) && Enabled(ts, a)
    ensures AllAttended(Do(ts, a))
  {
    var ts' := Do(ts, a);
    forall q | 0 <= q < |ts'| ensures Attended(ts', q) {
      hide ShapeOk, AllAttended, Attended;
      if a.Call? {
        if q < |ts| { AttendedCall(ts, a.p, q); } else { NewAttended(ts', q); }
      } else if a.Decrement? || a.UpSwap? || a.DecrementAndCheck? {
        AttendedUp(ts, a, q);
      } else {
        AttendedOwn(ts, a, q);
      }
    }
  }

  lemma NewAttended(ts: seq<Task>, q: nat)
    requires q < |ts| && ts[q].phase == Waiting
    ensures Attended(ts, q)
  {
  }

  lemma StepKeeps(ts: seq<Task>, a: Step)
    requires Inv(ts) && Enabled(ts, a)
    ensures Inv(Do(ts, a))
  {
    hide CountOk, ShapeOk, AllAttended, Do;
    CountKept(ts, a);
    ShapeKept(ts, a);
    AttendedKept(ts, a);
  }

  // ---- whole runs -----------------------------------------------------------

  /** The main task is running from the start. */
  const MAIN := Task(None, Running, 0, Body, NotYet)

  ghost predicate Took(ts: seq<Task>, a: Step, ts': seq<Task>) { Enabled(ts, a) && ts' == Do(ts, a) }

  ghost predicate IsRun(tr: seq<seq<Task>>, steps: seq<Step>) {
    && |tr| == |steps| + 1 && tr[0] == [MAIN]
    && forall i :: 0 <= i < |steps| ==> Took(tr[i], steps[i], tr[i + 1])
  }

  lemma RunStep(tr: seq<seq<Task>>, steps: seq<Step>, n: nat)
    requires IsRun(tr, steps) && n < |steps|
    ensures |tr| == |steps| + 1 && Enabled(tr[n], steps[n]) && tr[n + 1] == Do(tr[n], steps[n])
  {
    hide Enabled, Do;
    assert Took(tr[n], steps[n], tr[n + 1]);
  }

  lemma {:induction false} RunKeeps(tr: seq<seq<Task>>, steps: seq<Step>, n: nat)
    requires IsRun(tr, steps) && n < |tr|
    ensures Inv(tr[n])
  {
    if n == 0 {
      SumZero(Owing([MAIN], 0), 1);
    } else {
      hide Inv, Do, Enabled, IsRun;
      RunKeeps(tr, steps, n - 1);
      RunStep(tr, steps, n - 1);
      StepKeeps(tr[n - 1], steps[n - 1]);
    }
  }

  /** Does the step win the compare-and-swap of task p? */
  predicate Wins(ts: seq<Task>, a: Step, p: nat)
    requires Enabled(ts, a)
  {
    p < |ts| && ts[p].phase == Executed && ((a.OwnSwap? && a.k == p) || (a.UpSwap? && ts[a.k].parent == Some(p)))
  }

  function Releases(tr: seq<seq<Task>>, steps: seq<Step>, n: nat, p: nat): nat
    requires n <= |steps| && n < |tr| && forall i :: 0 <= i < n ==> Enabled(tr[i], steps[i])
  {
    if n == 0 then 0 else Releases(tr, steps, n - 1, p) + (if Wins(tr[n - 1], steps[n - 1], p) then 1 else 0)
  }

  predicate Released(ts: seq<Task>, p: nat) { p < |ts| && (ts[p].phase == Releasing || ts[p].phase == Complete) }

  lemma WinsRelease(ts: seq<Task>, a: Step, p: nat)
    requires ShapeOk(ts) && Enabled(ts, a)
    ensures Released(Do(ts, a), p) <==> Released(ts, p) || Wins(ts, a, p)
  {
    if !a.Call? { assert PhaseOk(ts[a.k]); }
  }

  lemma RunEnabled(tr: seq<seq<Task>>, steps: seq<Step>)
    requires IsRun(tr, steps)
    ensures forall i :: 0 <= i < |steps| ==> Enabled(tr[i], steps[i])
  {
    hide Enabled, Do;
    forall i | 0 <= i < |steps| ensures Enabled(tr[i], steps[i]) { RunStep(tr, steps, i); }
  }

  lemma RunStarts(tr: seq<seq<Task>>, steps: seq<Step>, p: nat)
    requires IsRun(tr, steps)
    ensures |tr| == |steps| + 1 && !Released(tr[0], p)
  {
    hide Took;
  }

  lemma {:induction false} ReleasesIs(tr: seq<seq<Task>>, steps: seq<Step>, n: nat, p: nat)
    requires n <= |steps| && n < |tr| && forall i :: 0 <= i < n ==> Enabled(tr[i], steps[i])
    ensures Releases(tr, steps, n, p) ==
      if n == 0 then 0 else Releases(tr, steps, n - 1, p) + (if Wins(tr[n - 1], steps[n - 1], p) then 1 else 0)
  {
    hide Enabled, Wins;
  }

  /** In every run every task is released at most once: as often as its phase says. */
  lemma {:induction false} ReleasedOnce(tr: seq<seq<Task>>, steps: seq<Step>, n: nat, p: nat)
    requires IsRun(tr, steps) && n < |tr|
    ensures forall i :: 0 <= i < |steps| ==> Enabled(tr[i], steps[i])
    ensures |tr| == |steps| + 1 && Releases(tr, steps, n, p) == if Released(tr[n], p) then 1 else 0
  {
    hide *;
    RunEnabled(tr, steps);
    RunStarts(tr, steps, p);
    ReleasesIs(tr, steps, n, p);
    if n > 0 {
      ReleasedOnce(tr, steps, n - 1, p);
      RunKeeps(tr, steps, n - 1);
      RunStep(tr, steps, n - 1);
      ShapeOf(tr[n - 1]);
      WinsRelease(tr[n - 1], steps[n - 1], p);
      WinsExecuted(tr[n - 1], steps[n - 1], p);
    }
  }

  lemma ShapeOf(ts: seq<Task>)
    requires Inv(ts)
    ensures ShapeOk(ts)
  {
  }

  lemma WinsExecuted(ts: seq<Task>, a: Step, p: nat)
    requires Enabled(ts, a)
    ensures Wins(ts, a, p) ==> !Released(ts, p)
  {
  }

  /** No thread is between two accesses of a release. */
  predicate Quiescent(ts: seq<Task>) {
    forall k :: 0 <= k < |ts| ==>
      (ts[k].own == Body || ts[k].own == Over) && (ts[k].up == NotYet || ts[k].up == Done) && ts[k].phase != Releasing
  }

  /** And never zero times: once the body has ended, all children have decremented and
      no thread is under way, the task has been released, exactly once. */
  lemma {:induction false} ReleasedExactlyOnce(tr: seq<seq<Task>>, steps: seq<Step>, n: nat, p: nat)
    requires IsRun(tr, steps) && n < |tr| && Quiescent(tr[n]) && p < |tr[n]|
    requires tr[n][p].phase != Waiting && tr[n][p].phase != Running
    requires forall k :: 0 <= k < |tr[n]| && tr[n][k].parent == Some(p) ==> tr[n][k].up == Done
    ensures forall i :: 0 <= i < |steps| ==> Enabled(tr[i], steps[i])
    ensures |tr| == |steps| + 1 && Releases(tr, steps, n, p) == 1
  {
    var ts := tr[n];
    RunKeeps(tr, steps, n);
    ReleasedOnce(tr, steps, n, p);
    hide IsRun;
    NothingOwing(ts, p);
    assert Attended(ts, p) && PhaseOk(ts[p]);
    assert forall c :: 0 <= c < |ts| ==> !Coming(ts[c], p);
  }

  lemma NothingOwing(ts: seq<Task>, p: nat)
    requires Inv(ts) && p < |ts| && forall k :: 0 <= k < |ts| && ts[k].parent == Some(p) ==> !Owes(ts[k], p)
    ensures ts[p].children == 0
  {
    forall k | 0 <= k < |ts| ensures Owing(ts, p)[k] == 0 { assert ts[k].parent == Some(p) || !Owes(ts[k], p); }
    SumZero(Owing(ts, p), |ts|);
  }

  /** What tpc_sync relies on: when it reads zero, every child called so far is COMPLETE. */
  lemma ZeroMeansComplete(tr: seq<seq<Task>>, steps: seq<Step>, n: nat, p: nat, k: nat)
    requires IsRun(tr, steps) && n < |tr| && p < |tr[n]| && tr[n][p].children == 0
    requires k < |tr[n]| && tr[n][k].parent == Some(p)
    ensures tr[n][k].phase == Complete
  {
    RunKeeps(tr, steps, n);
    ZeroChildren(tr[n], p, k);
  }

  lemma ZeroChildren(ts: seq<Task>, p: nat, k: nat)
    requires Inv(ts) && p < |ts| && ts[p].children == 0 && k < |ts| && ts[k].parent == Some(p)
    ensures ts[k].phase == Complete && ts[k].up != Decrementing
  {
    hide AllAttended;
    assert PhaseOk(ts[k]);
    SumAtLeast(Owing(ts, p), k, |ts|);
  }

  // ---- not before the descendants -------------------------------------------

  /** k is below p in the tree. */
  predicate Below(ts: seq<Task>, k: nat, p: nat)
    decreases k
  {
    HasParent(ts, k) && (ts[k].parent == Some(p) || Below(ts, ts[k].parent.value, p))
  }

  /** Every task released has no child left to decrement, and who is about to swap a
      status has seen a counter that is still zero. */
  ghost predicate ZeroOk(ts: seq<Task>) {
    && (forall p :: 0 <= p < |ts| && Released(ts, p) ==> ts[p].children == 0)
    && (forall k :: 0 <= k < |ts| && ts[k].own == AtSwap ==> ts[k].children == 0)
    && (forall k :: 0 <= k < |ts| && HasParent(ts, k) && ts[k].up == Swapping ==>
          ts[ts[k].parent.value].children == 0 && ts[ts[k].parent.value].phase != Running
          && ts[ts[k].parent.value].phase != Waiting)
  }

  lemma ZeroOkOwn(ts: seq<Task>, a: Step)
    requires Inv(ts) && ZeroOk(ts) && Enabled(ts, a) && !a.Decrement? && !a.Check? && !a.UpSwap? && !a.DecrementAndCheck?
    ensures ZeroOk(Do(ts, a))
  {
    hide CountOk, AllAttended, Below;
    if a.Call? { assert PhaseOk(ts[a.p]); } else { assert PhaseOk(ts[a.k]); }
  }

  lemma ZeroOkSwap(ts: seq<Task>, k: nat)
    requires Inv(ts) && ZeroOk(ts) && Enabled(ts, UpSwap(k))
    ensures ZeroOk(Do(ts, UpSwap(k)))
  {
    hide CountOk, AllAttended, Below;
    assert PhaseOk(ts[k]);
  }

  lemma ZeroOkAtomic(ts: seq<Task>, k: nat)
    requires Inv(ts) && ZeroOk(ts) && Enabled(ts, DecrementAndCheck(k))
    ensures ZeroOk(Do(ts, DecrementAndCheck(k)))
  {
    hide CountOk, AllAttended, Below;
    assert PhaseOk(ts[k]);
  }

  /** A run in which the decrement and the test of the parent's status are one step. */
  ghost predicate IsAtomic(steps: seq<Step>) {
    forall i :: 0 <= i < |steps| ==> !steps[i].Decrement? && !steps[i].Check?
  }

  lemma InitZero(tr: seq<seq<Task>>, steps: seq<Step>)
    requires IsRun(tr, steps)
    ensures |tr| == |steps| + 1 && ZeroOk(tr[0])
  {
  }

  lemma {:induction false} AtomicZero(tr: seq<seq<Task>>, steps: seq<Step>, n: nat)
    requires IsRun(tr, steps) && IsAtomic(steps) && n < |tr|
    ensures Inv(tr[n]) && ZeroOk(tr[n])
  {
    hide Inv, Do, Enabled, IsRun, ZeroOk;
    RunKeeps(tr, steps, n);
    InitZero(tr, steps);
    if n > 0 {
      AtomicZero(tr, steps, n - 1);
      RunStep(tr, steps, n - 1);
      var a := steps[n - 1];
      if a.UpSwap? { ZeroOkSwap(tr[n - 1], a.k); }
      else if a.DecrementAndCheck? { ZeroOkAtomic(tr[n - 1], a.k); }
      else { ZeroOkOwn(tr[n - 1], a); }
    }
  }

  lemma {:induction false} ReleasedBelow(ts: seq<Task>, k: nat, p: nat)
    requires Inv(ts) && ZeroOk(ts) && Released(ts, p) && k < |ts| && Below(ts, k, p)
    ensures ts[k].phase == Complete
    decreases k
  {
    var q := ts[k].parent.value;
    if q != p { ReleasedBelow(ts, q, p); }
    ZeroChildren(ts, q, k);
  }

  /** With the two accesses atomic, a task that is RELEASING or COMPLETE has only
      COMPLETE descendants, in every state of every run. */
  lemma {:induction false} HierarchicalCompletion(tr: seq<seq<Task>>, steps: seq<Step>, n: nat, k: nat, p: nat)
    requires IsRun(tr, steps) && IsAtomic(steps) && n < |tr|
    requires Released(tr[n], p) && k < |tr[n]| && Below(tr[n], k, p)
    ensures tr[n][k].phase == Complete
  {
    hide Inv, ZeroOk, IsRun;
    AtomicZero(tr, steps, n);
    ReleasedBelow(tr[n], k, p);
  }

  // ---- the same with the two accesses apart ----------------------------------

  /** A released task has only COMPLETE descendants. */
  ghost predicate TreeDone(ts: seq<Task>) {
    forall p, k :: 0 <= p < |ts| && 0 <= k < |ts| && Released(ts, p) && Below(ts, k, p) ==> ts[k].phase == Complete
  }

  /** The children called so far are COMPLETE; they may still have to decrement. */
  ghost predicate ChildrenDone(ts: seq<Task>, p: nat) {
    forall k :: 0 <= k < |ts| && ts[k].parent == Some(p) ==> ts[k].phase == Complete
  }

  ghost predicate KidsDone(ts: seq<Task>) {
    forall p :: 0 <= p < |ts| && Released(ts, p) ==> ChildrenDone(ts, p)
  }

  /** Before state n, every swap that won found the children of its task COMPLETE. */
  ghost predicate SwapsSound(tr: seq<seq<Task>>, steps: seq<Step>, n: nat) {
    forall i, p: nat :: 0 <= i < n && i < |steps| && i < |tr| && Enabled(tr[i], steps[i]) && Wins(tr[i], steps[i], p) ==>
      ChildrenDone(tr[i], p)
  }

  lemma {:induction false} TreeFromKids(ts: seq<Task>, k: nat, p: nat)
    requires ShapeOk(ts) && KidsDone(ts) && Released(ts, p) && k < |ts| && Below(ts, k, p)
    ensures ts[k].phase == Complete
    decreases k
  {
    var q := ts[k].parent.value;
    if q != p { TreeFromKids(ts, q, p); }
    assert ChildrenDone(ts, q);
  }

  lemma KidsKept(ts: seq<Task>, a: Step)
    requires ShapeOk(ts) && KidsDone(ts) && Enabled(ts, a)
    requires forall p: nat :: Wins(ts, a, p) ==> ChildrenDone(ts, p)
    ensures KidsDone(Do(ts, a))
  {
    var ts' := Do(ts, a);
    forall p | 0 <= p < |ts'| && Released(ts', p) ensures ChildrenDone(ts', p) {
      WinsRelease(ts, a, p);
      assert p < |ts| && ChildrenDone(ts, p);
      if !a.Call? { assert PhaseOk(ts[a.k]); }
    }
  }

  /** What the step that releases p finds. */
  lemma SwapFinds(ts: seq<Task>, a: Step, p: nat)
    requires ShapeOk(ts) && Enabled(ts, a) && Wins(ts, a, p) && TreeDone(Do(ts, a)) && ShapeOk(Do(ts, a))
    ensures ChildrenDone(ts, p)
  {
    var ts' := Do(ts, a);
    WinsRelease(ts, a, p);
    forall k | 0 <= k < |ts| && ts[k].parent == Some(p) ensures ts[k].phase == Complete {
      assert HasParent(ts, k) && ts'[k].parent == Some(p) && ts'[k].phase == ts[k].phase;
      assert HasParent(ts', k) && Below(ts', k, p);
    }
  }

  lemma {:induction false} KidsOverRun(tr: seq<seq<Task>>, steps: seq<Step>, n: nat)
    requires IsRun(tr, steps) && n < |tr| && SwapsSound(tr, steps, n)
    ensures ShapeOk(tr[n]) && KidsDone(tr[n])
  {
    RunKeeps(tr, steps, n);
    if n > 0 {
      hide Inv, Do, Enabled, IsRun, ShapeOk, Wins, ChildrenDone, KidsDone;
      KidsOverRun(tr, steps, n - 1);
      RunStep(tr, steps, n - 1);
      KidsKept(tr[n - 1], steps[n - 1]);
      ShapeOf(tr[n]);
    }
  }

  /** When hierarchical completion holds: in every run, with the two accesses apart,
      all released tasks up to state n have only COMPLETE descendants if and only if
      every swap that won before found the children of its task COMPLETE. */
  lemma {:induction false} CompletionIsExact(tr: seq<seq<Task>>, steps: seq<Step>, n: nat)
    requires IsRun(tr, steps) && n < |tr|
    ensures (forall m :: 0 <= m <= n ==> TreeDone(tr[m])) <==> SwapsSound(tr, steps, n)
  {
    RunEnabled(tr, steps);
    hide Inv, Do, Enabled, IsRun, ShapeOk, Wins, ChildrenDone, KidsDone, Below, Released;
    if SwapsSound(tr, steps, n) {
      forall m | 0 <= m <= n ensures TreeDone(tr[m]) {
        KidsOverRun(tr, steps, m);
        forall p, k | 0 <= p < |tr[m]| && 0 <= k < |tr[m]| && Released(tr[m], p) && Below(tr[m], k, p)
          ensures tr[m][k].phase == Complete
        {
          TreeFromKids(tr[m], k, p);
        }
      }
    }
    if forall m :: 0 <= m <= n ==> TreeDone(tr[m]) {
      forall i, p: nat | 0 <= i < n && i < |steps| && Enabled(tr[i], steps[i]) && Wins(tr[i], steps[i], p)
        ensures ChildrenDone(tr[i], p)
      {
        RunStep(tr, steps, i);
        RunKeeps(tr, steps, i);
        RunKeeps(tr, steps, i + 1);
        ShapeOf(tr[i]);
        ShapeOf(tr[i + 1]);
        assert TreeDone(tr[i + 1]);
        SwapFinds(tr[i], steps[i], p);
      }
    }
  }

  /** A guard that a thread could test with its swap: a counter that is zero then. */
  ghost predicate ZeroAtSwaps(tr: seq<seq<Task>>, steps: seq<Step>, n: nat) {
    forall i, p: nat :: 0 <= i < n && i < |steps| && i < |tr| && Enabled(tr[i], steps[i]) && Wins(tr[i], steps[i], p) ==>
      tr[i][p].children == 0
  }

  lemma ZeroSuffices(tr: seq<seq<Task>>, steps: seq<Step>, n: nat)
    requires IsRun(tr, steps) && n < |tr| && ZeroAtSwaps(tr, steps, n)
    ensures SwapsSound(tr, steps, n) && forall m :: 0 <= m <= n ==> TreeDone(tr[m])
  {
    hide Inv, Do, Enabled, IsRun, TreeDone;
    forall i, p: nat | 0 <= i < n && i < |steps| && i < |tr| && Enabled(tr[i], steps[i]) && Wins(tr[i], steps[i], p)
      ensures ChildrenDone(tr[i], p)
    {
      RunKeeps(tr, steps, i);
      assert tr[i][p].children == 0;
      forall k | 0 <= k < |tr[i]| && tr[i][k].parent == Some(p) ensures tr[i][k].phase == Complete { ZeroChildren(tr[i], p, k); }
    }
    CompletionIsExact(tr, steps, n);
  }

  function StaleSteps(): seq<Step> {
    [Call(0), Begin(1), Call(1), Begin(2), EndBody(2), Test(2), OwnSwap(2), Fired(2), Decrement(2),
     Call(1), EndBody(1), Test(1), Check(2), UpSwap(2)]
  }

  function StaleTrace(): seq<seq<Task>> {
    var m := MAIN.(children := 1);
    var p := Task(Some(0), Running, 0, Body, NotYet);
    var c := Task(Some(1), Running, 0, Body, NotYet);
    var w := Task(Some(1), Waiting, 0, Body, NotYet);
    var over := c.(phase := Complete, own := Over, up := Checking);
    [[MAIN],
     [m, p.(phase := Waiting)],
     [m, p],
     [m, p.(children := 1), c.(phase := Waiting)],
     [m, p.(children := 1), c],
     [m, p.(children := 1), c.(phase := Executed, own := AtTest)],
     [m, p.(children := 1), c.(phase := Executed, own := AtSwap)],
     [m, p.(children := 1), c.(phase := Releasing, own := Over)],
     [m, p.(children := 1), c.(phase := Complete, own := Over, up := Decrementing)],
     [m, p, over],
     [m, p.(children := 1), over, w],
     [m, p.(children := 1, phase := Executed, own := AtTest), over, w],
     [m, p.(children := 1, phase := Executed, own := Over), over, w],
     [m, p.(children := 1, phase := Executed, own := Over), over.(up := Swapping), w],
     [m, p.(children := 1, phase := Releasing, own := Over), over.(up := Done), w]]
  }

  lemma StaleStep(i: nat)
    requires i < 14
    ensures Took(StaleTrace()[i], StaleSteps()[i], StaleTrace()[i + 1])
  {
    var ts, a := StaleTrace()[i], StaleSteps()[i];
    assert Enabled(ts, a);
    assert Do(ts, a) == StaleTrace()[i + 1];
  }

  lemma StaleHalf(lo: nat, hi: nat)
    requires hi <= lo + 5 && hi <= 14
    ensures forall i :: lo <= i < hi ==> Took(StaleTrace()[i], StaleSteps()[i], StaleTrace()[i + 1])
  {
    forall i | lo <= i < hi ensures Took(StaleTrace()[i], StaleSteps()[i], StaleTrace()[i + 1]) {
      StaleStep(i);
    }
  }

  /** A stale zero: the parent has spawned again and reached EXECUTED before the child
      looks, and is released although its second child has not even started. */
  lemma StaleZero() returns (tr: seq<seq<Task>>, steps: seq<Step>)
    ensures IsRun(tr, steps) && |tr[|steps|]| == 4
    ensures Released(tr[|steps|], 1) && tr[|steps|][3].parent == Some(1) && tr[|steps|][3].phase == Waiting
  {
    tr, steps := StaleTrace(), StaleSteps();
    StaleHalf(0, 5);
    StaleHalf(5, 10);
    StaleHalf(10, 14);
    hide Took, Do, Enabled;
  }
}
