/** The argument lists that keep readers after writers are exactly those of
    DepFragment: any other list has a run, among tasks of the simplest kind, in which
    a reader overtakes a writer of its block. */
module DepArgs {
  import opened DepMachine
  import opened DepCount
  import opened DepOrder
  import opened DepFragment
  import opened DepProgress
  import opened DepExact
  import opened DepCalls

  // ---- a list that ends by reading what it has written ---------------------------

  /** Does the last of the first p accesses to b write it? */
  function LastOut(acc: seq<Access>, p: nat, b: int): bool
    requires p <= |acc|
  {
    p > 0 && if acc[p - 1].block == b then acc[p - 1].out else LastOut(acc, p - 1, b)
  }

  /** The task is alone: everything in force is its own, and remembers nobody. */
  ghost predicate Alone(s: State, b: int) {
    && |s.tasks| == 1 && Fresh(s.tasks) && s.pc.Scan? && s.pc.p <= |Latest(s)|
    && (forall c :: c in s.table ==> s.table[c] < |s.elems|)
    && (forall m :: 0 <= m < |s.elems| ==> s.elems[m].owner == 0 && s.elems[m].dep == None)
    && (Hits(Latest(s), s.pc.p, b) ==> b in s.table && s.elems[s.table[b]].out == LastOut(Latest(s), s.pc.p, b))
  }

  lemma MineAt(s: State)
    requires WF(s) && s.pc.Scan? && s.tasks != [] && s.pc.p < |Latest(s)|
    ensures var c := Latest(s)[s.pc.p];
      s.base + c.arg < |s.elems| && s.elems[s.base + c.arg].owner == |s.tasks| - 1 && s.elems[s.base + c.arg].out == c.out
  {
  }

  lemma AloneStep(s: State, s': State, b: int)
    requires WF(s) && Alone(s, b) && s.pc.p < |Latest(s)| && Taken(s, s')
    ensures Alone(s', b)
  {
    MineAt(s);
    hide WF;
  }

  lemma {:induction false} AloneOn(args: seq<Arg>, s: State, b: int) returns (s': State)
    requires Reach(args, s) && Alone(s, b)
    ensures Reach(args, s') && Alone(s', b) && s'.pc.p == |Latest(s')| && SameTasks(s.tasks, s'.tasks)
    decreases |Latest(s)| - s.pc.p
  {
    hide Reach;
    s' := s;
    if s.pc.p < |Latest(s)| {
      ReachKeeps(args, s);
      var s1 := TakeAccess(args, s);
      hide WF, CountInv, Taken;
      AloneStep(s, s1, b);
      TakenTasks(s, s1);
      s' := AloneOn(args, s1, b);
    }
  }

  lemma TakenTasks(s: State, s': State)
    requires s.tasks != [] && s.pc.Scan? && s.pc.p < |Latest(s)| && Taken(s, s')
    ensures SameTasks(s.tasks, s'.tasks) && s'.pc.Scan? && s'.pc.p == s.pc.p + 1
  {
  }

  // ---- nothing more is remembered --------------------------------------------------

  /** The newest task's element m is in force at b, to stay, and there are no writer
      elements of other tasks that it could come to remember. */
  ghost predicate Quiet(s: State, b: int, m: nat, dep: Option<nat>) {
    && s.tasks != [] && Fresh(s.tasks) && s.pc.Scan? && s.pc.p <= |Latest(s)|
    && (forall c :: c in s.table ==> s.table[c] < |s.elems| && (s.elems[s.table[c]].out ==> s.elems[s.table[c]].owner == |s.tasks| - 1))
    && b in s.table && s.table[b] == m && s.elems[m].owner == |s.tasks| - 1 && !s.elems[m].out && s.elems[m].dep == dep
    && !Rewritten(Latest(s), s.pc.p, b)
  }

  lemma QuietStep(s: State, s': State, b: int, m: nat, dep: Option<nat>)
    requires WF(s) && Quiet(s, b, m, dep) && s.pc.p < |Latest(s)| && Taken(s, s')
    ensures Quiet(s', b, m, dep)
  {
    MineAt(s);
    hide WF;
  }

  lemma {:induction false} QuietOn(args: seq<Arg>, s: State, b: int, m: nat, dep: Option<nat>) returns (s': State)
    requires Reach(args, s) && Quiet(s, b, m, dep)
    ensures Reach(args, s') && Quiet(s', b, m, dep) && s'.pc.p == |Latest(s')| && SameTasks(s.tasks, s'.tasks)
    ensures SameKinds(s.elems, s'.elems)
    decreases |Latest(s)| - s.pc.p
  {
    hide Reach;
    s' := s;
    if s.pc.p < |Latest(s)| {
      ReachKeeps(args, s);
      var s1 := TakeAccess(args, s);
      QuietStep(s, s1, b, m, dep) by { hide Taken; }
      hide WF, CountInv;
      s' := QuietOn(args, s1, b, m, dep);
    }
  }

  // ---- a push that deps_last makes unnecessary ---------------------------------------

  /** The newest task has pushed on the first one last, which is also the last writer of
      b; the access at position q, the first to b, is still to come. */
  ghost predicate Skipping(s: State, b: int, q: nat) {
    && |s.tasks| > 1 && Fresh(s.tasks) && s.pc.Scan? && s.pc.p <= q < |Latest(s)| && Last(s) == Some(0)
    && (forall c :: c in s.table ==> s.table[c] < |s.elems|)
    && b in s.table && s.elems[s.table[b]].out && s.elems[s.table[b]].owner == 0
    && (forall c :: c in s.table && c != b && s.elems[s.table[c]].out ==> s.elems[s.table[c]].owner == |s.tasks| - 1)
    && s.base + Latest(s)[q].arg < |s.elems| && s.elems[s.base + Latest(s)[q].arg].dep == None
    && (forall k :: s.pc.p <= k < q ==>
          && Latest(s)[k].block != b
          && (Latest(s)[k].block in s.table ==> s.elems[s.table[Latest(s)[k].block]].owner == |s.tasks| - 1))
  }

  lemma SkippingStep(s: State, s': State, b: int, q: nat)
    requires WF(s) && Skipping(s, b, q) && s.pc.p < q && Taken(s, s')
    ensures Skipping(s', b, q)
  {
    MineAt(s);
    hide WF;
  }

  lemma SkipNow(s: State, s': State, b: int, q: nat)
    requires WF(s) && Skipping(s, b, q) && s.pc.p == q && Taken(s, s')
    requires Latest(s)[q].block == b && !Rewritten(Latest(s), q, b)
    ensures Quiet(s', b, s.base + Latest(s)[q].arg, None)
  {
    MineAt(s);
    assert !Latest(s)[q].out;
    hide WF;
  }

  lemma {:induction false} SkipOn(args: seq<Arg>, s: State, b: int, q: nat) returns (s': State)
    requires Reach(args, s) && Skipping(s, b, q) && Latest(s)[q].block == b && !Rewritten(Latest(s), 0, b)
    ensures Reach(args, s') && (exists m :: Quiet(s', b, m, None)) && SameTasks(s.tasks, s'.tasks)
    decreases q - s.pc.p
  {
    hide Reach;
    ReachKeeps(args, s);
    var s1 := TakeAccess(args, s);
    TakenTasks(s, s1);
    hide WF, CountInv, Taken;
    if s.pc.p < q {
      SkippingStep(s, s1, b, q);
      s' := SkipOn(args, s1, b, q);
    } else {
      SkipNow(s, s1, b, q);
      s' := s1;
    }
  }

  // ---- the tasks around it -------------------------------------------------------

  lemma OneAccess(b: int, out: bool)
    ensures SimpleArgs([Arg(false, out, b, b)]) && Accesses([Arg(false, out, b, b)], 1) == [Access(0, b, out)]
  {
    assert Blocks(0, b + 1, b, out) == [] && Blocks(0, b, b, out) == [Access(0, b, out)];
    assert Accesses([Arg(false, out, b, b)], 0) == [];
  }

  function TwoWrites(c: int, d: int): seq<Arg> { [Arg(false, true, c, c), Arg(false, true, d, d)] }

  lemma TwoAccesses(c: int, d: int)
    ensures SimpleArgs(TwoWrites(c, d)) && Accesses(TwoWrites(c, d), 2) == [Access(0, c, true), Access(1, d, true)]
  {
    assert Blocks(0, c + 1, c, true) == [] && Blocks(0, c, c, true) == [Access(0, c, true)];
    assert Blocks(1, d + 1, d, true) == [] && Blocks(1, d, d, true) == [Access(1, d, true)];
    assert Accesses(TwoWrites(c, d), 0) == [] && Accesses(TwoWrites(c, d), 1) == [Access(0, c, true)];
  }

  /** Between two calls, n tasks called and nobody released. */
  ghost predicate Called(args: seq<Arg>, s: State, n: nat) {
    Reach(args, s) && s.pc == Idle && |s.tasks| == n && Fresh(s.tasks)
  }

  predicate IsWriter(e: Elem, t: nat) { e.out && e.owner == t }

  /** The first task writes c and d. */
  lemma FirstWrites(args: seq<Arg>, c: int, d: int) returns (s: State)
    requires c != d
    ensures Called(args, s, 1) && s.tasks[0].acc == [Access(0, c, true), Access(1, d, true)]
    ensures s.table == map[c := 0, d := 1] && |s.elems| == 2 && IsWriter(s.elems[0], 0) && IsWriter(s.elems[1], 0)
  {
    hide Reach, Accesses, SimpleArgs;
    ReachInit(args);
    TwoAccesses(c, d);
    var s1 := Open(args, Init(1), TwoWrites(c, d));
    var s2 := TakeAccess(args, s1);
    var s3 := TakeAccess(args, s2);
    s := Close(args, s3);
  }

  /** And the second one reads c. */
  lemma SecondReads(args: seq<Arg>, c: int, d: int) returns (s: State)
    requires c != d
    ensures Called(args, s, 2) && s.tasks[0].acc == [Access(0, c, true), Access(1, d, true)]
    ensures s.table == map[c := 2, d := 1] && |s.elems| == 3 && IsWriter(s.elems[0], 0) && IsWriter(s.elems[1], 0)
    ensures !s.elems[2].out && s.elems[2].owner == 1 && s.elems[2].dep == Some(0)
  {
    var s0 := FirstWrites(args, c, d);
    hide Reach, Accesses, SimpleArgs;
    OneAccess(c, false);
    var s1 := Open(args, s0, [Arg(false, false, c, c)]);
    var s2 := TakeAccess(args, s1);
    s := Close(args, s2);
  }

  /** The first task writes d, the second one b. */
  lemma BothWrite(args: seq<Arg>, d: int, b: int) returns (s: State)
    requires b != d
    ensures Called(args, s, 2) && s.tasks[1].acc == [Access(0, b, true)]
    ensures s.table == map[d := 0, b := 1] && |s.elems| == 2 && IsWriter(s.elems[0], 0) && IsWriter(s.elems[1], 1)
  {
    hide Reach, Accesses, SimpleArgs;
    ReachInit(args);
    OneAccess(d, true);
    OneAccess(b, true);
    var s1 := Open(args, Init(1), [Arg(false, true, d, d)]);
    var s2 := TakeAccess(args, s1);
    var s3 := Close(args, s2);
    var s4 := Open(args, s3, [Arg(false, true, b, b)]);
    var s5 := TakeAccess(args, s4);
    s := Close(args, s5);
  }

  // ---- a writer is forgotten -------------------------------------------------------

  /** A later reader of b will not wait for task w, which writes b. */
  ghost predicate Loses(args: seq<Arg>, s: State, b: int, w: nat) {
    Reach(args, s) && s.pc == Idle && Fresh(s.tasks) && w < |s.tasks| && Modifies(s.tasks[w], b) && Forgetful(s, b, w)
  }

  lemma Calls(args: seq<Arg>, s: State) returns (s1: State)
    requires Called(args, s, |s.tasks|)
    ensures Reach(args, s1) && s1.pc == Scan(0, 0) && s1.base == |s.elems| && s1.table == s.table && Fresh(s1.tasks)
    ensures |s1.tasks| == |s.tasks| + 1 && (forall k :: 0 <= k < |s.tasks| ==> s1.tasks[k] == s.tasks[k])
    ensures Latest(s1) == Accesses(args, |args|) && Last(s1) == None
    ensures s.elems <= s1.elems && forall m :: |s.elems| <= m < |s1.elems| ==> s1.elems[m].dep == None && s1.elems[m].owner == |s.tasks|
  {
    hide Reach, Accesses;
    s1 := Open(args, s, args);
  }

  lemma EndQuiet(args: seq<Arg>, s: State, b: int, m: nat, dep: Option<nat>, w: nat) returns (s': State)
    requires Reach(args, s) && Quiet(s, b, m, dep) && w < |s.tasks| && Modifies(s.tasks[w], b)
    requires dep.Some? ==> w > 0 && dep.value < |s.elems| && s.elems[dep.value].owner == 0
    ensures Loses(args, s', b, w)
  {
    hide Reach, Stores;
    var s1 := QuietOn(args, s, b, m, dep);
    s' := Close(args, s1);
  }

  /** The list writes b and reads it last. */
  lemma OwnWriteLost(args: seq<Arg>, b: int, q: nat) returns (s: State)
    requires q < |Accesses(args, |args|)|
    requires var acc := Accesses(args, |args|);
      !acc[q].out && acc[q].block == b && !Rewritten(acc, q, b) && Rewritten(acc, 0, b)
    ensures Loses(args, s, b, 0)
  {
    hide Reach, Accesses;
    ReachInit(args);
    assert Fresh(Init(1).tasks) && |Init(1).tasks| == 0;
    var s1 := Calls(args, Init(1));
    var acc := Latest(s1);
    assert Alone(s1, b);
    var s2 := AloneOn(args, s1, b);
    LastIsRead(acc, q, |acc|, b);
    AloneForgets(s2, b, q);
    s := Close(args, s2);
    assert Stores(acc, |acc|, b);
  }

  lemma {:induction false} AloneForgets(s: State, b: int, q: nat)
    requires Alone(s, b) && s.pc.p == |Latest(s)| && q < |Latest(s)| && Latest(s)[q].block == b
    requires !LastOut(Latest(s), |Latest(s)|, b)
    ensures Forgetful(s, b, 0)
  {
    assert Hits(Latest(s), s.pc.p, b);
  }

  lemma {:induction false} LastIsRead(acc: seq<Access>, q: nat, p: nat, b: int)
    requires q < p <= |acc| && !acc[q].out && acc[q].block == b && !Rewritten(acc, q, b)
    ensures !LastOut(acc, p, b)
  {
    if q < p - 1 { LastIsRead(acc, q, p - 1, b); }
  }

  /** q is the first access to b, and none writes it. */
  predicate FirstRead(acc: seq<Access>, b: int, q: nat) {
    && q < |acc| && acc[q].block == b && !Rewritten(acc, 0, b)
    && forall k :: 0 <= k < q ==> acc[k].block != b
  }

  lemma SkipStart(s: State, s': State, b: int, q: nat, mode: bool)
    requires WF(s) && s.pc == Scan(0, 0) && |s.tasks| > 1 && Fresh(s.tasks) && Last(s) == None && Latest(s) != []
    requires FirstRead(Latest(s), b, q) && q > 0 && InOrder(Latest(s)) && Taken(s, s')
    requires |s.elems| >= 2 && IsWriter(s.elems[0], 0) && IsWriter(s.elems[1], 0)
    requires forall m :: s.base <= m < |s.elems| ==> s.elems[m].dep == None && s.elems[m].owner == |s.tasks| - 1
    requires var c := Latest(s)[0];
      if mode then s.table == map[c.block := 0, b := 1] && (c.out || c.arg != Latest(s)[q].arg)
      else && !c.out && c.arg == Latest(s)[q].arg && |s.elems| >= 3 && s.table == map[c.block := 2, b := 1]
           && !s.elems[2].out && s.elems[2].owner == 1 && s.elems[2].dep == Some(0) && |s.tasks| > 2
    ensures Skipping(s', b, q)
  {
    MineAt(s);
    var acc := Latest(s);
    assert s.base + acc[q].arg < |s.elems| && s.elems[s.base + acc[q].arg].out == acc[q].out;
    forall k | 1 <= k < q ensures mode || acc[k].block != acc[0].block { }
    hide WF;
  }

  /** The list reads b, never writes it, and begins with another block. */
  predicate ReadsLater(args: seq<Arg>, b: int, q: nat) {
    q > 0 && FirstRead(Accesses(args, |args|), b, q)
  }

  /** A push that deps_last makes unnecessary leaves nothing to remember. */
  lemma SkippedWriteLost(args: seq<Arg>, b: int, q: nat) returns (s: State)
    requires ReadsLater(args, b, q)
    ensures Loses(args, s, b, 0)
  {
    var acc := Accesses(args, |args|);
    AccessesInOrder(args, |args|);
    var c := acc[0].block;
    var mode := acc[0].out || acc[0].arg != acc[q].arg;
    var s0: State;
    if mode { s0 := FirstWrites(args, c, b); } else { s0 := SecondReads(args, c, b); }
    WritesSecond(s0.tasks[0], c, b);
    hide Reach, Accesses, InOrder, Rewritten, Stores;
    var s1 := Calls(args, s0);
    var s2 := TakeAccess(args, s1);
    ReachKeeps(args, s1);
    SkipStart(s1, s2, b, q, mode);
    TakenTasks(s1, s2);
    hide WF, CountInv, Taken, Skipping;
    var s3 := SkipOn(args, s2, b, q);
    var m :| Quiet(s3, b, m, None);
    s := EndQuiet(args, s3, b, m, None, 0);
  }

  lemma WritesSecond(t: Task, c: int, b: int)
    requires t.acc == [Access(0, c, true), Access(1, b, true)]
    ensures Modifies(t, b)
  {
    assert t.acc[1].block == b;
  }

  lemma WritesOnly(t: Task, b: int)
    requires t.acc == [Access(0, b, true)]
    ensures Modifies(t, b)
  {
    assert t.acc[0].block == b;
  }

  lemma OverStart(s: State, s1: State, s2: State, b: int)
    requires WF(s) && WF(s1) && s.pc == Scan(0, 0) && |s.tasks| == 3 && Fresh(s.tasks) && Last(s) == None && |Latest(s)| > 1
    requires Latest(s)[0].block == b && !Rewritten(Latest(s), 0, b) && Latest(s)[1].arg == Latest(s)[0].arg && !Latest(s)[1].out
    requires Latest(s)[1].block != b && s.table == map[Latest(s)[1].block := 0, b := 1]
    requires |s.elems| >= 2 && s.base >= 2 && IsWriter(s.elems[0], 0) && IsWriter(s.elems[1], 1)
    requires Taken(s, s1) && Taken(s1, s2)
    ensures Quiet(s2, b, s.base + Latest(s)[0].arg, Some(0))
    ensures SameKinds(s.elems, s2.elems) && SameTasks(s.tasks, s2.tasks)
  {
    MineAt(s);
    MineAt(s1);
    assert !Latest(s)[0].out;
    hide WF;
  }

  /** A second block of the first argument overwrites what was remembered. */
  lemma OverwrittenLost(args: seq<Arg>, b: int) returns (s: State)
    requires var acc := Accesses(args, |args|);
      |acc| > 1 && acc[0].block == b && !acc[0].out && !Rewritten(acc, 0, b) && acc[1].arg == acc[0].arg
    ensures Loses(args, s, b, 1)
  {
    AccessesInOrder(args, |args|);
    var d := Accesses(args, |args|)[1].block;
    var s0 := BothWrite(args, d, b);
    WritesOnly(s0.tasks[1], b);
    hide Reach, Accesses, Rewritten, Stores;
    var s1 := Calls(args, s0);
    var s2 := TakeAccess(args, s1);
    TakenTasks(s1, s2);
    var s3 := TakeAccess(args, s2);
    ReachKeeps(args, s1);
    ReachKeeps(args, s2);
    OverStart(s1, s2, s3, b);
    hide WF, CountInv, Taken;
    s := EndQuiet(args, s3, b, s1.base + Latest(s1)[0].arg, Some(0), 1);
  }

  lemma {:induction false} FirstAt(acc: seq<Access>, b: int, n: nat) returns (q: nat)
    requires n < |acc| && acc[n].block == b
    ensures q <= n && acc[q].block == b && forall k :: 0 <= k < q ==> acc[k].block != b
    decreases n
  {
    if exists k :: 0 <= k < n && acc[k].block == b {
      var k :| 0 <= k < n && acc[k].block == b;
      q := FirstAt(acc, b, k);
    } else {
      q := n;
    }
  }

  /** Whatever the list, if it is not one of DepFragment's, a writer is forgotten. */
  lemma WriterLost(args: seq<Arg>) returns (s: State, b: int, w: nat)
    requires !RawSafeArgs(args)
    ensures Loses(args, s, b, w)
  {
    var acc := Accesses(args, |args|);
    hide Accesses, Loses, Rewritten;
    var q: nat :| q < |acc| && !acc[q].out && !Rewritten(acc, q, acc[q].block) && !(HeadRead(acc) && acc[q].block == acc[0].block);
    b := acc[q].block;
    if Rewritten(acc, 0, b) {
      w := 0;
      s := OwnWriteLost(args, b, q);
    } else {
      var f := FirstAt(acc, b, q);
      if f > 0 {
        w := 0;
        s := SkippedWriteLost(args, b, f);
      } else {
        AccessesInOrder(args, |args|);
        SecondSameArg(acc, b);
        w := 1;
        s := OverwrittenLost(args, b);
      }
    }
  }

  lemma SecondSameArg(acc: seq<Access>, b: int)
    requires InOrder(acc) && acc != [] && acc[0].block == b && !Rewritten(acc, 0, b) && !HeadRead(acc)
    ensures !acc[0].out && |acc| > 1 && acc[1].arg == acc[0].arg
  {
    assert !acc[0].out;
    var r :| 0 < r < |acc| && acc[r].arg == acc[0].arg;
    assert acc[0].arg <= acc[1].arg && (1 < r ==> acc[1].arg <= acc[r].arg);
  }

  // ---- exactly these lists -----------------------------------------------------------

  /** No reader has started before an earlier writer of its block is released. */
  ghost predicate ReadersWait(ts: seq<Task>) {
    forall i: nat, j: nat, b: int :: i < j < |ts| && Modifies(ts[i], b) && Uses(ts[j], b) && Started(ts[j]) ==> Released(ts[i])
  }

  /** Nor does one in any state of any run in which the tasks have this list, or a
      simple one. */
  ghost predicate KeepsReaders(args: seq<Arg>) {
    forall threads: nat, tr: seq<State>, steps: seq<Step>, n: nat ::
      IsRun(threads, tr, steps) && Mixed(steps, args) && n < |tr| ==> ReadersWait(tr[n].tasks)
  }

  lemma {:induction false} ReachOn(args: seq<Arg>, s: State, tr: seq<State>, steps: seq<Step>, m: nat)
    requires Reach(args, s) && Continues(s, tr, steps) && m < |tr| && forall k :: 0 <= k < |steps| ==> !steps[k].Spawn?
    ensures Reach(args, tr[m])
  {
    hide Reach, WF, Enabled, Do, CountInv;
    if m > 0 {
      ReachOn(args, s, tr, steps, m - 1);
      assert Next(tr[m - 1], steps[m - 1], tr[m]);
      Take(args, tr[m - 1], steps[m - 1]);
    }
  }

  lemma Overtaking(args: seq<Arg>) returns (s: State)
    requires !RawSafeArgs(args)
    ensures Reach(args, s) && !ReadersWait(s.tasks)
  {
    hide Reach, RawSafe, Accesses, WF, CountInv, Safe, Continues;
    var s0, b, w := WriterLost(args);
    var x := |s0.tasks|;
    var s1 := LastReader(args, s0, b, w);
    ReachKeeps(args, s1);
    var tr, steps := Overtake(s1, w, x);
    ReachOn(args, s1, tr, steps, |steps|);
    s := tr[|steps|];
    SameLists(args, s1, tr, steps, |steps|);
    assert Modifies(s.tasks[w], b);
    assert Uses(s.tasks[x], b) by { assert s.tasks[x].acc[0].block == b; }
  }

  lemma {:induction false} SameLists(args: seq<Arg>, s: State, tr: seq<State>, steps: seq<Step>, m: nat)
    requires Reach(args, s) && Continues(s, tr, steps) && m < |tr| && forall k :: 0 <= k < |steps| ==> !steps[k].Spawn?
    ensures |tr[m].tasks| == |s.tasks| && forall k :: 0 <= k < |s.tasks| ==> tr[m].tasks[k].acc == s.tasks[k].acc
  {
    if m > 0 {
      SameLists(args, s, tr, steps, m - 1);
      ReachOn(args, s, tr, steps, m - 1);
      ReachKeeps(args, tr[m - 1]);
      hide Reach, WF, Enabled, Do, CountInv;
      assert Next(tr[m - 1], steps[m - 1], tr[m]);
      SameCount(tr[m - 1], steps[m - 1]);
      forall k | 0 <= k < |s.tasks| ensures tr[m].tasks[k].acc == s.tasks[k].acc { OneBody(tr[m - 1], steps[m - 1], k); }
    }
  }

  /** RAW (and WAW) ordering is guaranteed for exactly the lists of DepFragment: among
      tasks with simple lists, a task's list never lets a reader start before an earlier
      writer of its block is released if and only if every block that it reads is
      written later in the list, or is the block of a first argument that it never
      writes. */
  lemma RawSafeIsExact(args: seq<Arg>)
    ensures KeepsReaders(args) <==> RawSafeArgs(args)
  {
    if RawSafeArgs(args) {
      forall threads: nat, tr: seq<State>, steps: seq<Step>, n: nat | IsRun(threads, tr, steps) && Mixed(steps, args) && n < |tr|
        ensures ReadersWait(tr[n].tasks)
      {
        MixedFragment(threads, tr, steps, args);
        forall i: nat, j: nat, b: int | i < j < |tr[n].tasks| && Modifies(tr[n].tasks[i], b) && Uses(tr[n].tasks[j], b) && Started(tr[n].tasks[j])
          ensures Released(tr[n].tasks[i])
        {
          WritersFirst(threads, tr, steps, n, i, j, b);
        }
      }
    } else {
      var s := Overtaking(args);
      var tr, steps :| IsRun(1, tr, steps) && |tr| == |steps| + 1 && tr[|steps|] == s && Mixed(steps, args);
    }
  }

  lemma MixedFragment(threads: nat, tr: seq<State>, steps: seq<Step>, args: seq<Arg>)
    requires IsRun(threads, tr, steps) && Mixed(steps, args) && RawSafeArgs(args)
    ensures FragmentRun(threads, tr, steps)
  {
    hide IsRun, RawSafeArgs, SimpleArgs;
    forall i | 0 <= i < |steps| && steps[i].Spawn? ensures RawSafeArgs(steps[i].args) {
      if steps[i].args != args { SimpleIsRawSafe(steps[i].args); }
    }
  }
}
