/** Calls taken whole, while nobody is being released: what one access, the end of a
    call, and the call of a last reader leave behind. */
module DepCalls {
  import opened DepMachine
  import opened DepCount
  import opened DepOrder
  import opened DepFragment
  import opened DepProgress
  import opened DepExact

  // ---- the shape of the list of accesses --------------------------------------

  /** Arguments in order, and the blocks of one argument one by one. */
  predicate InOrder(acc: seq<Access>) {
    forall k, l :: 0 <= k < l < |acc| ==>
      && acc[k].arg <= acc[l].arg
      && (acc[k].arg == acc[l].arg ==> acc[l].block == acc[k].block + (l - k) && acc[l].out == acc[k].out)
  }

  lemma {:induction false} BlocksInOrder(arg: nat, lo: int, hi: int, out: bool)
    ensures InOrder(Blocks(arg, lo, hi, out))
    ensures forall k :: 0 <= k < |Blocks(arg, lo, hi, out)| ==> Blocks(arg, lo, hi, out)[k] == Access(arg, lo + k, out)
    decreases hi - lo
  {
    if lo <= hi { BlocksInOrder(arg, lo + 1, hi, out); }
  }

  lemma AppendInOrder(a: seq<Access>, b: seq<Access>, n: nat)
    requires InOrder(a) && InOrder(b)
    requires (forall k :: 0 <= k < |a| ==> a[k].arg < n) && forall k :: 0 <= k < |b| ==> b[k].arg == n
    ensures InOrder(a + b)
  {
    forall k, l | 0 <= k < l < |a + b|
      ensures (a + b)[k].arg <= (a + b)[l].arg
      ensures (a + b)[k].arg == (a + b)[l].arg ==>
                (a + b)[l].block == (a + b)[k].block + (l - k) && (a + b)[l].out == (a + b)[k].out
    {
      if k >= |a| { assert b[k - |a|].arg <= b[l - |a|].arg; }
    }
  }

  lemma ArgInOrder(i: nat, a: Arg)
    ensures InOrder(ArgAccesses(i, a)) && forall k :: 0 <= k < |ArgAccesses(i, a)| ==> ArgAccesses(i, a)[k].arg == i
  {
    BlocksInOrder(i, a.lo, a.hi, a.out);
    NoneInOrder();
    hide Blocks, InOrder;
  }

  lemma {:induction false} AccessesInOrder(args: seq<Arg>, n: nat)
    requires n <= |args|
    ensures InOrder(Accesses(args, n))
  {
    hide InOrder, ArgAccesses;
    if n > 0 {
      AccessesInOrder(args, n - 1);
      AccessesKind(args, n - 1);
      ArgInOrder(n - 1, args[n - 1]);
      AppendInOrder(Accesses(args, n - 1), ArgAccesses(n - 1, args[n - 1]), n - 1);
    } else {
      NoneInOrder();
    }
  }

  lemma NoneInOrder()
    ensures InOrder([])
  {
  }

  // ---- runs of one list among simple ones --------------------------------------

  ghost predicate Mixed(steps: seq<Step>, args: seq<Arg>) {
    forall i :: 0 <= i < |steps| && steps[i].Spawn? ==> steps[i].args == args || SimpleArgs(steps[i].args)
  }

  ghost predicate Reach(args: seq<Arg>, s: State) {
    exists tr, steps :: IsRun(1, tr, steps) && |tr| == |steps| + 1 && tr[|steps|] == s && Mixed(steps, args)
  }

  lemma Extend(tr: seq<State>, steps: seq<Step>, a: Step, s': State)
    requires IsRun(1, tr, steps) && Next(tr[|steps|], a, s')
    ensures IsRun(1, tr + [s'], steps + [a])
  {
    hide Next, Init;
    var tr', steps' := tr + [s'], steps + [a];
    forall i | 0 <= i < |steps'| ensures Next(tr'[i], steps'[i], tr'[i + 1]) {
      if i < |steps| { assert Next(tr[i], steps[i], tr[i + 1]); }
    }
  }

  lemma Take(args: seq<Arg>, s: State, a: Step)
    requires Reach(args, s) && Enabled(s, a) && (a.Spawn? ==> a.args == args || SimpleArgs(a.args))
    ensures WF(s) && CountInv(s) && Reach(args, Do(s, a))
  {
    hide WF, Enabled, Do, CountInv, Init, SimpleArgs, IsRun;
    var tr, steps :| IsRun(1, tr, steps) && |tr| == |steps| + 1 && tr[|steps|] == s && Mixed(steps, args);
    RunKeeps(1, tr, steps, |steps|);
    var s' := Do(s, a);
    assert Next(s, a, s');
    Extend(tr, steps, a, s');
    assert (tr + [s'])[|steps + [a]|] == s';
    assert Mixed(steps + [a], args);
  }

  lemma ReachKeeps(args: seq<Arg>, s: State)
    requires Reach(args, s)
    ensures WF(s) && CountInv(s) && |s.deques| == 1
  {
    hide WF, CountInv, IsRun;
    var tr, steps :| IsRun(1, tr, steps) && |tr| == |steps| + 1 && tr[|steps|] == s && Mixed(steps, args);
    RunKeeps(1, tr, steps, |steps|);
    ThreadsStay(1, tr, steps, |steps|);
  }

  lemma ReachInit(args: seq<Arg>)
    ensures Reach(args, Init(1))
  {
    assert IsRun(1, [Init(1)], []) && [Init(1)][0] == Init(1) && Mixed([], args);
  }

  // ---- one access --------------------------------------------------------------

  /** Nobody has begun to be released: every push succeeds, every owner is alive. */
  predicate Fresh(ts: seq<Task>) {
    forall k :: 0 <= k < |ts| ==> !ts[k].closed && Rank(ts[k].status) <= Rank(Scheduled)
  }

  predicate SameTasks(ts: seq<Task>, ts': seq<Task>) {
    |ts'| == |ts| && forall k :: 0 <= k < |ts| ==>
      ts'[k].acc == ts[k].acc && ts'[k].status == ts[k].status && ts'[k].closed == ts[k].closed
  }

  predicate SameKinds(es: seq<Elem>, es': seq<Elem>) {
    |es'| == |es| && forall m :: 0 <= m < |es| ==> es'[m].owner == es[m].owner && es'[m].out == es[m].out
  }

  predicate SameDeps(es: seq<Elem>, es': seq<Elem>) {
    |es'| == |es| && forall m :: 0 <= m < |es| ==> es'[m].dep == es[m].dep
  }

  function Last(s: State): Option<nat>
    requires s.tasks != []
  {
    s.tasks[|s.tasks| - 1].last
  }

  lemma ReaderOnce(s: State)
    requires WF(s) && s.pc.Walk? && s.tasks != []
    ensures var s1 := Do(s, Reader);
      && SameTasks(s.tasks, s1.tasks) && s1.table == s.table && s1.elems == s.elems && s1.base == s.base && s1.pc.p >= s.pc.p
      && if s.pc.rest == [] then s1.pc.Scan? && s1.pc.p == s.pc.p + 1 && Last(s1) == Last(s)
         else s1.pc.Walk? && s1.pc.p == s.pc.p && s1.pc.rest == s.pc.rest[1..]
              && (s.pc.rest[0] == |s.tasks| - 1 ==> Last(s1) == Last(s))
  {
    assert Do(s, Reader) == DoReader(s);
    hide WF;
  }

  /** The rest of the walk over readers. */
  lemma {:induction false} WalkThrough(args: seq<Arg>, s: State) returns (s': State)
    requires Reach(args, s) && s.pc.Walk? && s.tasks != []
    ensures Reach(args, s') && s'.pc.Scan? && s'.pc.p == s.pc.p + 1 && SameTasks(s.tasks, s'.tasks)
    ensures s'.table == s.table && s'.elems == s.elems && s'.base == s.base
    ensures Within(s.pc.rest, |s.tasks| - 1, |s.tasks|) ==> Last(s') == Last(s)
    decreases |s.pc.rest|
  {
    hide Reach, WF, CountInv, Do;
    ReachKeeps(args, s);
    Take(args, s, Reader);
    ReaderOnce(s);
    s' := Do(s, Reader);
    if s.pc.rest != [] { s' := WalkThrough(args, s'); }
  }

  /** Does access c put an element of its own in force? */
  predicate TakesOver(s: State, c: Access) {
    c.out || c.block !in s.table || (s.table[c.block] < |s.elems| && s.elems[s.table[c.block]].out)
  }

  /** Does it push on a writer and remember it? */
  predicate Remembers(s: State, c: Access)
    requires s.tasks != []
  {
    && !c.out && c.block in s.table && s.table[c.block] < |s.elems| && s.elems[s.table[c.block]].out
    && s.elems[s.table[c.block]].owner != |s.tasks| - 1 && Last(s) != Some(s.elems[s.table[c.block]].owner)
  }

  /** What one access leaves in deps_last, where that is needed. */
  ghost predicate LastFollows(s: State, s': State, c: Access)
    requires s.tasks != [] && s'.tasks != []
  {
    if c.block !in s.table || s.table[c.block] >= |s.elems| then Last(s') == Last(s)
    else
      var e := s.elems[s.table[c.block]];
      if e.owner == |s.tasks| - 1 then Last(s') == Last(s)
      else if e.out then Last(s') == Some(e.owner)
      else !c.out && e.dep.Some? && e.dep.value < |s.elems| && Last(s) != Some(e.owner) ==>
             Last(s') == Some(s.elems[e.dep.value].owner)
  }

  ghost predicate Taken(s: State, s': State)
    requires s.tasks != [] && s.pc.Scan? && s.pc.p < |Latest(s)|
  {
    var c := Latest(s)[s.pc.p];
    var mine := s.base + c.arg;
    && SameTasks(s.tasks, s'.tasks) && s'.pc.Scan? && s'.pc.p == s.pc.p + 1 && s'.base == s.base
    && SameKinds(s.elems, s'.elems)
    && s'.table == (if TakesOver(s, c) then s.table[c.block := mine] else s.table)
    && (forall m :: 0 <= m < |s.elems| ==>
          s'.elems[m].dep == if m == mine && Remembers(s, c) then Some(s.table[c.block]) else s.elems[m].dep)
    && LastFollows(s, s', c)
  }

  /** The access is half done: readers are still to be visited, or joined. */
  ghost predicate HalfDone(s: State, s1: State, c: Access) {
    && c.block in s.table && s.table[c.block] < |s.elems| && !s.elems[s.table[c.block]].out
    && s1.tasks == s.tasks && s1.base == s.base && SameKinds(s.elems, s1.elems) && SameDeps(s.elems, s1.elems)
    && if c.out then s1.pc.Walk? && s.pc.Scan? && s1.pc.p == s.pc.p && s1.table == s.table[c.block := s.base + c.arg]
                     && s1.pc.rest == s.elems[s.table[c.block]].readers
       else s1.pc.Join? && s.pc.Scan? && s1.pc.p == s.pc.p && s1.table == s.table
  }

  lemma NewShape(s: State, c: Access)
    requires WF(s) && s.tasks != [] && s.pc.Scan? && s.pc.p < |Latest(s)| && c == Latest(s)[s.pc.p]
    requires CanAnalyse(s, c) && c.block !in s.table
    ensures Taken(s, Analysis(s, c))
  {
    hide WF;
  }

  lemma WawFound(s: State, c: Access)
    requires WF(s) && s.tasks != [] && s.pc.Scan? && s.pc.p < |Latest(s)| && c == Latest(s)[s.pc.p] && Fresh(s.tasks)
    requires CanAnalyse(s, c) && c.block in s.table && s.elems[s.table[c.block]].out && c.out
    ensures Taken(s, AnalyseOut(s, c))
  {
    hide WF;
  }

  lemma RawFound(s: State, c: Access)
    requires WF(s) && s.tasks != [] && s.pc.Scan? && s.pc.p < |Latest(s)| && c == Latest(s)[s.pc.p] && Fresh(s.tasks)
    requires CanAnalyse(s, c) && c.block in s.table && s.elems[s.table[c.block]].out && !c.out
    ensures Taken(s, AnalyseIn(s, c))
  {
    hide WF;
  }

  lemma ReadersFound(s: State, c: Access)
    requires WF(s) && s.tasks != [] && s.pc.Scan? && s.pc.p < |Latest(s)| && c == Latest(s)[s.pc.p] && Fresh(s.tasks)
    requires CanAnalyse(s, c) && c.block in s.table && !s.elems[s.table[c.block]].out
    ensures HalfDone(s, Analysis(s, c), c)
  {
    assert OwnerAlive(s, s.table[c.block]);
    hide WF;
  }

  lemma AnalysisCases(s: State, c: Access)
    requires CanAnalyse(s, c)
    ensures Analysis(s, c) == if c.out then AnalyseOut(s, c) else AnalyseIn(s, c)
  {
  }

  /** The step is in one piece unless it becomes a walk or a join. */
  lemma AnalyseShape(s: State, c: Access)
    requires WF(s) && s.tasks != [] && s.pc.Scan? && s.pc.p < |Latest(s)| && c == Latest(s)[s.pc.p] && Fresh(s.tasks)
    requires CanAnalyse(s, c)
    ensures if c.block in s.table && s.table[c.block] < |s.elems| && !s.elems[s.table[c.block]].out
            then HalfDone(s, Analysis(s, c), c)
            else Taken(s, Analysis(s, c))
  {
    hide WF, HalfDone, Taken, Analysis;
    if c.block !in s.table { NewShape(s, c); }
    else if s.elems[s.table[c.block]].out {
      AnalysisCases(s, c);
      if c.out { WawFound(s, c); } else { RawFound(s, c); }
    }
    else { ReadersFound(s, c); }
  }

  lemma WalkTaken(s: State, s1: State, s': State, c: Access)
    requires s.tasks != [] && s.pc.Scan? && s.pc.p < |Latest(s)| && c == Latest(s)[s.pc.p] && c.out && HalfDone(s, s1, c)
    requires s'.pc.Scan? && s'.pc.p == s1.pc.p + 1 && SameTasks(s1.tasks, s'.tasks)
    requires s'.table == s1.table && s'.elems == s1.elems && s'.base == s1.base
    requires Within(s1.pc.rest, |s1.tasks| - 1, |s1.tasks|) ==> Last(s') == Last(s1)
    requires s.elems[s.table[c.block]].owner == |s.tasks| - 1 ==> Within(s1.pc.rest, |s.tasks| - 1, |s.tasks|)
    ensures Taken(s, s')
  {
    hide Within;
  }

  lemma JoinTaken(s: State, s1: State, s': State, c: Access)
    requires s.tasks != [] && s.pc.Scan? && s.pc.p < |Latest(s)| && c == Latest(s)[s.pc.p] && !c.out && HalfDone(s, s1, c)
    requires s'.pc.Scan? && s'.pc.p == s1.pc.p + 1 && SameTasks(s1.tasks, s'.tasks)
    requires s'.table == s1.table && s'.elems == s1.elems && s'.base == s1.base
    requires c.block in s1.table && s1.table[c.block] < |s1.elems|
    requires var e := s1.elems[s1.table[c.block]];
      if e.owner == |s1.tasks| - 1 then Last(s') == Last(s1)
      else e.dep.Some? && e.dep.value < |s1.elems| && Last(s1) != Some(e.owner) ==>
             Last(s') == Some(s1.elems[e.dep.value].owner)
    ensures Taken(s, s')
  {
  }

  lemma OwnReadersOnly(s: State, m: nat)
    requires WF(s) && m < |s.elems| && s.elems[m].owner == |s.tasks| - 1 && s.tasks != []
    ensures Within(s.elems[m].readers, |s.tasks| - 1, |s.tasks|)
  {
    assert ElemOk(s.elems[m], s.elems, |s.tasks|);
  }

  lemma JoinOnce(s: State)
    requires WF(s) && s.pc.Join? && s.tasks != [] && Fresh(s.tasks) && s.pc.p < |Latest(s)|
    ensures var s' := Do(s, JoinPush); var b := Latest(s)[s.pc.p].block;
      && s'.pc.Scan? && s'.pc.p == s.pc.p + 1 && SameTasks(s.tasks, s'.tasks)
      && s'.table == s.table && s'.elems == s.elems && s'.base == s.base
      && b in s.table && s.table[b] < |s.elems|
      && var e := s.elems[s.table[b]];
         if e.owner == |s.tasks| - 1 then Last(s') == Last(s)
         else e.dep.Some? && e.dep.value < |s.elems| && Last(s) != Some(e.owner) ==>
                Last(s') == Some(s.elems[e.dep.value].owner)
  {
    assert Do(s, JoinPush) == DoJoinPush(s);
    assert ElemOk(Joined(s), s.elems, |s.tasks|);
    hide WF, Do;
  }

  lemma TakeAccess(args: seq<Arg>, s: State) returns (s': State)
    requires Reach(args, s) && s.pc.Scan? && s.tasks != [] && s.pc.p < |Latest(s)| && Fresh(s.tasks)
    ensures Reach(args, s') && Taken(s, s')
  {
    ReachKeeps(args, s);
    var c := Latest(s)[s.pc.p];
    assert Enabled(s, Analyse);
    hide *;
    ScanFacts(s);
    Take(args, s, Analyse);
    AnalyseShape(s, c);
    var s1 := Analysis(s, c);
    AnalysisIs(s, c);
    if c.block in s.table && s.table[c.block] < |s.elems| && !s.elems[s.table[c.block]].out {
      ReachKeeps(args, s1);
      HalfFacts(s, s1, c);
      if c.out {
        s' := WalkThrough(args, s1);
        if s.elems[s.table[c.block]].owner == |s.tasks| - 1 { OwnReadersOnly(s, s.table[c.block]); }
        WalkTaken(s, s1, s', c);
      } else {
        Take(args, s1, JoinPush);
        JoinOnce(s1);
        s' := Do(s1, JoinPush);
        JoinTaken(s, s1, s', c);
      }
    } else {
      s' := s1;
    }
  }

  lemma AnalysisIs(s: State, c: Access)
    requires WF(s) && Enabled(s, Analyse) && c == Latest(s)[s.pc.p] && CanAnalyse(s, c)
    ensures Analysis(s, c) == Do(s, Analyse)
  {
    ScanFacts(s);
    hide WF, Do;
  }

  lemma HalfFacts(s: State, s1: State, c: Access)
    requires HalfDone(s, s1, c) && s.tasks != [] && s.pc.p < |Latest(s)| && c == Latest(s)[s.pc.p] && Fresh(s.tasks)
    ensures s1.tasks == s.tasks && s1.tasks != [] && s1.pc.p < |Latest(s1)| && c == Latest(s1)[s1.pc.p]
    ensures if c.out then s1.pc.Walk? && s1.pc.rest == s.elems[s.table[c.block]].readers else s1.pc.Join? && Enabled(s1, JoinPush)
    ensures c.block in s.table && s.table[c.block] < |s.elems|
  {
  }

  // ---- whole calls -------------------------------------------------------------

  lemma Open(args: seq<Arg>, s: State, list: seq<Arg>) returns (s1: State)
    requires Reach(args, s) && s.pc == Idle && Fresh(s.tasks) && (list == args || SimpleArgs(list))
    ensures Reach(args, s1) && s1.pc == Scan(0, 0) && s1.base == |s.elems| && s1.table == s.table
    ensures s1.tasks == s.tasks + [NewTask(list)] && s1.elems == s.elems + NewElems(list, |s.tasks|) && Fresh(s1.tasks)
  {
    hide Reach, SimpleArgs, Accesses, NewElems;
    Take(args, s, Spawn(list));
    s1 := Do(s, Spawn(list));
    hide WF, CountInv;
  }

  /** What the end of a call leaves alone. */
  predicate Ending(s: State, s': State) {
    && s'.table == s.table && s'.elems == s.elems && |s'.tasks| == |s.tasks| && Fresh(s'.tasks)
    && forall k :: 0 <= k < |s.tasks| ==> s'.tasks[k].acc == s.tasks[k].acc && s'.tasks[k].notify == s.tasks[k].notify
  }

  lemma EndingStep(s: State, a: Step)
    requires WF(s) && Enabled(s, a) && Fresh(s.tasks) && a in {Finish, Publication, ParentClaim, ParentPut(0)}
    requires a == Finish || CreatingOk(s.tasks, s.pc)
    ensures var s' := Do(s, a);
      && Ending(s, s')
      && s'.pc == if a == Finish then (if s.pc.n == 0 then Claiming else Publish)
                  else if a == ParentClaim then Putting else Idle
  {
    hide WF;
  }

  lemma EndingTwice(s: State, s1: State, s2: State)
    requires Ending(s, s1) && Ending(s1, s2)
    ensures Ending(s, s2)
  {
  }

  lemma EndStep(args: seq<Arg>, s: State, a: Step) returns (s': State)
    requires Reach(args, s) && Enabled(s, a) && Fresh(s.tasks) && a in {Finish, Publication, ParentClaim, ParentPut(0)}
    ensures Reach(args, s') && Ending(s, s') && |s'.deques| == 1
    ensures s'.pc == if a == Finish then (if s.pc.Scan? && s.pc.n == 0 then Claiming else Publish)
                     else if a == ParentClaim then Putting else Idle
  {
    ReachKeeps(args, s);
    StepFacts(s);
    hide Reach, WF, CountInv, Do, Ending, Fresh, CreatingOk, HeldBack;
    Take(args, s, a);
    EndingStep(s, a);
    s' := Do(s, a);
    ReachKeeps(args, s');
  }

  lemma Close(args: seq<Arg>, s: State) returns (s': State)
    requires Reach(args, s) && s.pc.Scan? && s.tasks != [] && s.pc.p == |Latest(s)| && Fresh(s.tasks)
    ensures Reach(args, s') && s'.pc == Idle && Ending(s, s')
  {
    hide Reach;
    var s1 := EndStep(args, s, Finish);
    if s.pc.n == 0 {
      var s2 := EndStep(args, s1, ParentClaim);
      s' := EndStep(args, s2, ParentPut(0));
      EndingTwice(s, s1, s2);
      EndingTwice(s, s2, s');
    } else {
      s' := EndStep(args, s1, Publication);
      EndingTwice(s, s1, s');
    }
  }

  // ---- the reader that comes last ------------------------------------------------

  /** A reader element of the newest task is in force at b; it remembers nobody, or the
      first task. */
  ghost predicate Forgetful(s: State, b: int, w: nat) {
    && s.tasks != [] && b in s.table && s.table[b] < |s.elems|
    && var e := s.elems[s.table[b]];
       && !e.out && e.owner == |s.tasks| - 1
       && (e.dep.Some? ==> w > 0 && e.dep.value < |s.elems| && s.elems[e.dep.value].owner == 0)
  }

  /** Task x is on no stack but the first task's. */
  ghost predicate WaitsForFirst(ts: seq<Task>, x: nat, w: nat) {
    forall k :: 0 <= k < |ts| && x in ts[k].notify ==> k == 0 && w > 0
  }

  lemma {:induction false} NotSafe(ts: seq<Task>, w: nat, x: nat)
    requires w < x < |ts| && Fresh(ts) && WaitsForFirst(ts, x, w)
    ensures !Safe(ts, w, x)
  {
    assert !Safe(ts, w, 0);
  }

  /** A task that reads b only has been called next. */
  ghost predicate ReaderCalled(s: State, b: int, w: nat) {
    && |s.tasks| > 1 && Latest(s) == [Access(0, b, false)] && Fresh(s.tasks)
    && b in s.table && s.table[b] < |s.elems|
    && var e := s.elems[s.table[b]];
       && !e.out && e.owner == |s.tasks| - 2
       && (e.dep.Some? ==> w > 0 && e.dep.value < |s.elems| && s.elems[e.dep.value].owner == 0)
  }

  lemma {:induction false} ReaderOpened(s: State, s1: State, b: int, w: nat, list: seq<Arg>)
    requires Forgetful(s, b, w) && Fresh(s1.tasks) && s1.table == s.table && s1.tasks == s.tasks + [NewTask(list)]
    requires s1.elems == s.elems + NewElems(list, |s.tasks|) && Accesses(list, |list|) == [Access(0, b, false)]
    requires ElemsOk(s.elems, |s.tasks|)
    ensures ReaderCalled(s1, b, w)
  {
    hide Accesses;
  }

  lemma ReaderJoins(s: State, b: int, w: nat)
    requires WF(s) && s.pc == Scan(0, 0) && ReaderCalled(s, b, w)
    ensures Enabled(s, Analyse)
    ensures var s1 := Do(s, Analyse); s1.pc == Join(0, 0) && s1.tasks == s.tasks && ReaderCalled(s1, b, w)
  {
    ScanFacts(s);
    ReadersFound(s, Latest(s)[0]);
    AnalysisIs(s, Latest(s)[0]);
    hide WF, Do, Analysis;
    var s1 := Do(s, Analyse);
    assert s1.pc.n == 0 by { JoinCount(s); }
  }

  lemma JoinCount(s: State)
    requires WF(s) && s.pc == Scan(0, 0) && Enabled(s, Analyse) && Do(s, Analyse).pc.Join?
    ensures Do(s, Analyse).pc.n == 0
  {
  }

  lemma ReaderPushed(s: State, b: int, w: nat)
    requires WF(s) && s.pc == Join(0, 0) && ReaderCalled(s, b, w)
    requires WaitsForFirst(s.tasks, |s.tasks| - 1, w)
    ensures var s1 := Do(s, JoinPush);
      && s1.pc.Scan? && s1.pc.p == 1 && SameTasks(s.tasks, s1.tasks) && Fresh(s1.tasks) && WaitsForFirst(s1.tasks, |s.tasks| - 1, w)
  {
    assert Do(s, JoinPush) == DoJoinPush(s);
    hide WF, Do;
  }

  lemma NewOnNoStack(ts: seq<Task>, t: Task, w: nat)
    requires TasksOk(ts) && t.notify == []
    ensures WaitsForFirst(ts + [t], |ts|, w)
  {
    forall k | 0 <= k < |ts| ensures |ts| !in ts[k].notify { assert TaskOk(ts[k], k, |ts|); }
  }

  lemma OneRead(b: int)
    ensures SimpleArgs([Arg(false, false, b, b)]) && Accesses([Arg(false, false, b, b)], 1) == [Access(0, b, false)]
  {
    assert Blocks(0, b + 1, b, false) == [] && Blocks(0, b, b, false) == [Access(0, b, false)];
    assert Accesses([Arg(false, false, b, b)], 0) == [];
  }

  /** The call of a reader of b, up to the end of its analysis. */
  lemma ReaderAnalysed(args: seq<Arg>, s: State, b: int, w: nat) returns (s': State)
    requires Reach(args, s) && s.pc == Idle && Fresh(s.tasks) && Forgetful(s, b, w) && w < |s.tasks|
    ensures Reach(args, s') && s'.pc.Scan? && s'.pc.p == 1 && Fresh(s'.tasks) && |s'.tasks| == |s.tasks| + 1
    ensures s'.tasks[w].acc == s.tasks[w].acc && Latest(s') == [Access(0, b, false)]
    ensures WaitsForFirst(s'.tasks, |s.tasks|, w)
  {
    hide Reach, WF, CountInv, Do, Accesses, WaitsForFirst, Enabled, ReaderCalled, NewElems, Forgetful;
    ReachKeeps(args, s);
    WFParts(s);
    OneRead(b);
    var list := [Arg(false, false, b, b)];
    var s1 := Open(args, s, list);
    NewOnNoStack(s.tasks, NewTask(list), w);
    ReachKeeps(args, s1);
    ReaderOpened(s, s1, b, w, list);
    hide Forgetful, NewTask, Fresh;
    ReaderJoins(s1, b, w);
    Take(args, s1, Analyse);
    var s2 := Do(s1, Analyse);
    ReachKeeps(args, s2);
    assert Enabled(s2, JoinPush) by { CanJoin(s2); }
    ReaderPushed(s2, b, w);
    Take(args, s2, JoinPush);
    s' := Do(s2, JoinPush);
  }

  lemma WFParts(s: State)
    requires WF(s)
    ensures TasksOk(s.tasks) && ElemsOk(s.elems, |s.tasks|)
  {
  }

  lemma CanJoin(s: State)
    requires s.pc.Join?
    ensures Enabled(s, JoinPush)
  {
  }

  lemma StillFirst(ts: seq<Task>, ts': seq<Task>, x: nat, w: nat)
    requires |ts'| == |ts| && (forall k :: 0 <= k < |ts| ==> ts'[k].notify == ts[k].notify) && WaitsForFirst(ts, x, w)
    ensures WaitsForFirst(ts', x, w)
  {
  }

  /** A reader of b is called and waits for nobody but perhaps the first task. */
  lemma LastReader(args: seq<Arg>, s: State, b: int, w: nat) returns (s': State)
    requires Reach(args, s) && s.pc == Idle && Fresh(s.tasks) && Forgetful(s, b, w) && w < |s.tasks|
    ensures Reach(args, s') && s'.pc == Idle && |s'.tasks| == |s.tasks| + 1
    ensures s'.tasks[w].acc == s.tasks[w].acc && s'.tasks[|s.tasks|].acc == [Access(0, b, false)]
    ensures !Safe(s'.tasks, w, |s.tasks|)
  {
    hide Reach, Safe, Forgetful, WaitsForFirst;
    var s1 := ReaderAnalysed(args, s, b, w);
    s' := Close(args, s1);
    StillFirst(s1.tasks, s'.tasks, |s.tasks|, w);
    NotSafe(s'.tasks, w, |s.tasks|);
  }
}
