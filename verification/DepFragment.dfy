/** Argument lists for which the analysis orders readers after writers without any
    further hypothesis.  Module DepArgs shows that there are no others. */
module DepFragment {
  import opened DepMachine
  import opened DepCount
  import opened DepOrder

  /** Block b is written at position p or later. */
  predicate Rewritten(acc: seq<Access>, p: nat, b: int) {
    exists r :: p <= r < |acc| && acc[r].block == b && acc[r].out
  }

  /** The list begins with the only access of an IN argument, to a block that it never
      writes. */
  predicate HeadRead(acc: seq<Access>) {
    && acc != [] && !acc[0].out && !Rewritten(acc, 0, acc[0].block)
    && forall r :: 0 < r < |acc| ==> acc[r].arg != acc[0].arg
  }

  /** Every block read is written later in the list, or is the one the list begins with. */
  predicate RawSafe(acc: seq<Access>) {
    forall q :: 0 <= q < |acc| && !acc[q].out ==>
      Rewritten(acc, q, acc[q].block) || (HeadRead(acc) && acc[q].block == acc[0].block)
  }

  predicate RawSafeArgs(args: seq<Arg>) { RawSafe(Accesses(args, |args|)) }

  /** The simplest such lists: SAFE arguments anywhere, at most one IN argument of one
      block in front of the others, then OUT or INOUT over any blocks. */
  predicate SimpleArgs(args: seq<Arg>) {
    forall k :: 0 <= k < |args| && !args[k].safe && !args[k].out ==>
      && args[k].lo == args[k].hi
      && forall l :: 0 <= l < k ==> args[l].safe || args[l].hi < args[l].lo
  }

  predicate ReadFirst(acc: seq<Access>) {
    forall q :: 0 < q < |acc| ==> acc[q].out
  }

  lemma OneBlock(i: nat, a: Arg)
    requires !a.safe && a.lo == a.hi
    ensures ArgAccesses(i, a) == [Access(i, a.lo, a.out)]
  {
    assert Blocks(i, a.lo + 1, a.hi, a.out) == [];
  }

  lemma ArgKind(i: nat, a: Arg)
    ensures forall q :: 0 <= q < |ArgAccesses(i, a)| ==> ArgAccesses(i, a)[q].out == a.out
    ensures a.safe || a.hi < a.lo ==> ArgAccesses(i, a) == []
  {
    BlocksKind(i, a.lo, a.hi, a.out);
  }

  lemma {:induction false} SimpleArgsReadFirst(args: seq<Arg>, n: nat)
    requires SimpleArgs(args) && n <= |args|
    ensures ReadFirst(Accesses(args, n))
    ensures (forall l :: 0 <= l < n ==> args[l].safe || args[l].hi < args[l].lo) ==> Accesses(args, n) == []
  {
    hide ArgAccesses;
    if n > 0 {
      SimpleArgsReadFirst(args, n - 1);
      var a := args[n - 1];
      ArgKind(n - 1, a);
      if !a.safe && !a.out { OneBlock(n - 1, a); }
    }
  }

  lemma SimpleIsRawSafe(args: seq<Arg>)
    requires SimpleArgs(args)
    ensures RawSafeArgs(args)
  {
    SimpleArgsReadFirst(args, |args|);
    AccessesKind(args, |args|);
    hide SimpleArgs, Accesses;
  }

  ghost predicate FragmentRun(threads: nat, tr: seq<State>, steps: seq<Step>) {
    IsRun(threads, tr, steps) && forall i :: 0 <= i < |steps| && steps[i].Spawn? ==> RawSafeArgs(steps[i].args)
  }

  // ---- the invariant of the fragment ----------------------------------------

  function Latest(s: State): seq<Access>
    requires s.tasks != []
  {
    s.tasks[|s.tasks| - 1].acc
  }

  ghost predicate AllRawSafe(ts: seq<Task>) {
    forall k :: 0 <= k < |ts| ==> RawSafe(ts[k].acc)
  }

  /** Before its first access the newest task has pushed nothing. */
  ghost predicate FirstOk(s: State) {
    s.tasks != [] && (s.pc.Scan? || s.pc.Join?) && s.pc.p == 0 ==>
      s.tasks[|s.tasks| - 1].last == None && s.pc.n == 0
  }

  /** The block that the list begins with stays read. */
  ghost predicate HeadKept(s: State) {
    s.tasks != [] && Analysing(s.pc) && s.pc.p > 0 && HeadRead(Latest(s)) ==>
      var b := Latest(s)[0].block;
      b in s.table && s.table[b] < |s.elems| && !s.elems[s.table[b]].out
  }

  /** An element of the task that is being analysed. */
  predicate Own(s: State, m: nat) {
    s.tasks != [] && Analysing(s.pc) && m < |s.elems| && s.elems[m].owner == |s.tasks| - 1
  }

  /** A reader element is in force at one block only, once its task is analysed. */
  ghost predicate InForceOnce(s: State) {
    forall b, c :: b in s.table && c in s.table && s.table[b] == s.table[c] < |s.elems| && !s.elems[s.table[b]].out
                   && !Own(s, s.table[b]) ==>
      b == c
  }

  /** A reader element knows the writer that its later readers must wait for. */
  ghost predicate WriterKnown(s: State, e: Elem, b: int) {
    forall i: nat :: Wrote(s, i, b) && i < |s.tasks| ==>
      || Released(s.tasks[i])
      || (&& e.dep.Some? && e.dep.value < |s.elems| && s.elems[e.dep.value].owner < |s.tasks|
          && (i == s.elems[e.dep.value].owner || Safe(s.tasks, i, s.elems[e.dep.value].owner)))
  }

  ghost predicate WritersReleased(s: State, b: int) {
    forall i: nat :: Wrote(s, i, b) && i < |s.tasks| ==> Released(s.tasks[i])
  }

  /** The newest task will write the block itself, or b is the block it begins with. */
  ghost predicate Known(s: State, b: int)
    requires b in s.table && s.table[b] < |s.elems|
  {
    var m := s.table[b];
    if Own(s, m) then
      var acc := Latest(s);
      || Rewritten(acc, s.pc.p, b)
      || (HeadRead(acc) && b == acc[0].block
          && (WritersReleased(s, b) || (m == s.base + acc[0].arg && WriterKnown(s, s.elems[m], b))))
    else WriterKnown(s, s.elems[m], b)
  }

  ghost predicate WritersKnown(s: State) {
    forall b :: b in s.table && s.table[b] < |s.elems| && !s.elems[s.table[b]].out ==> Known(s, b)
  }

  /** Readers in force use the block. */
  ghost predicate ReadersUse(s: State) {
    forall b :: b in s.table && s.table[b] < |s.elems| && !s.elems[s.table[b]].out ==>
      forall r <- s.elems[s.table[b]].readers ::
        Touched(s, r, b) || (s.tasks != [] && r == |s.tasks| - 1 && s.pc.Join? && s.pc.p < |s.tasks[r].acc| && CurBlock(s) == b)
  }

  /** If the next step replaces a list of readers, it drops none that must still be waited for. */
  ghost predicate ReadersKept(s: State) {
    WF(s) && Enabled(s, Analyse) ==>
      var c := s.tasks[|s.tasks| - 1].acc[s.pc.p];
      CanAnalyse(s, c) ==> DropKeeps(s, c)
  }

  ghost predicate FragmentInv(s: State) {
    && AllRawSafe(s.tasks)
    && FirstOk(s)
    && HeadKept(s)
    && WritersKnown(s)
    && ReadersUse(s)
    && InForceOnce(s)
  }

  // ---- joins are sound ------------------------------------------------------

  /** What a join rests on, for an element that another task owns. */
  lemma {:induction false} JoinOther(s: State, war: bool, i: nat)
    requires WF(s) && s.pc.Join? && Ready(s) && OrderInv(s, war)
    requires Joined(s).owner < |s.tasks| - 1 && WriterKnown(s, Joined(s), CurBlock(s))
    requires i < |s.tasks| - 1 && Wrote(s, i, CurBlock(s))
    ensures Safe(s.tasks, i, |s.tasks| - 1) || Covers(s, Joined(s), i)
  {
    hide *;
    JoinParts(s, war);
    ReadyHolds(s);
    JoinInForce(s);
    var t, e, b := |s.tasks| - 1, Joined(s), CurBlock(s);
    if Released(s.tasks[i]) {
      ReleasedIsSafe(s.tasks, i, t);
    } else if s.tasks[t].last == Some(e.owner) {
      LastIsSafe(s, war, e.owner);
      if i != e.owner {
        WriterBefore(s, war, i, b);
        SafeTrans(s.tasks, i, e.owner, t);
      }
    } else {
      KnownCovers(s, e, i, b);
    }
  }

  lemma JoinInForce(s: State)
    requires WF(s) && s.pc.Join? && BranchOk(s)
    ensures s.tasks != [] && Analysing(s.pc) && s.pc.p < |s.tasks[|s.tasks| - 1].acc|
    ensures var b := CurBlock(s);
      b in s.table && s.table[b] < |s.elems| && s.elems[s.table[b]] == Joined(s) && Joined(s).owner < |s.tasks| && !WalkingOn(s, b)
  {
    JoinShape(s);
    hide WF, DoJoinPush, WalkingOn;
  }

  lemma ReadyHolds(s: State)
    requires Ready(s)
    ensures HeldBack(s.tasks)
  {
  }

  lemma {:induction false} LastIsSafe(s: State, war: bool, w: nat)
    requires OrderInv(s, war) && s.tasks != [] && s.tasks[|s.tasks| - 1].last == Some(w)
    ensures w < |s.tasks| && Safe(s.tasks, w, |s.tasks| - 1)
  {
    hide Safe;
  }

  /** An earlier writer is ordered before the owner of the element in force. */
  lemma {:induction false} WriterBefore(s: State, war: bool, i: nat, b: int)
    requires OrderInv(s, war) && Wrote(s, i, b) && !WalkingOn(s, b)
    requires b in s.table && s.table[b] < |s.elems| && i != s.elems[s.table[b]].owner < |s.tasks|
    ensures i < |s.tasks| && Safe(s.tasks, i, s.elems[s.table[b]].owner)
  {
    hide Safe, Wrote, Touched, WalkingOn, TablesOk, WalkOk, BranchOk, LastsOk;
    var w := s.elems[s.table[b]].owner;
    assert Ordered(s, war, i, w, b);
    assert i < |s.tasks| by { WriterThere(s, i, b); }
  }

  lemma WriterThere(s: State, i: nat, b: int)
    requires Wrote(s, i, b)
    ensures i < |s.tasks|
  {
  }

  lemma KnownCovers(s: State, e: Elem, i: nat, b: int)
    requires s.tasks != [] && WriterKnown(s, e, b) && Wrote(s, i, b) && i < |s.tasks| && !Released(s.tasks[i])
    requires e.owner < |s.tasks| - 1 && s.tasks[|s.tasks| - 1].last != Some(e.owner)
    ensures Covers(s, e, i)
  {
    hide Safe, Wrote;
  }

  lemma {:induction false} ReleasedIsSafe(ts: seq<Task>, i: nat, j: nat)
    requires i < |ts| && j < |ts| && Released(ts[i])
    ensures Safe(ts, i, j)
  {
  }

  /** And for one of its own: it is ordered after the writers already. */
  lemma {:induction false} JoinOwn(s: State, war: bool, i: nat)
    requires WF(s) && s.pc.Join? && OrderInv(s, war) && Joined(s).owner == |s.tasks| - 1
    requires i < |s.tasks| - 1 && Wrote(s, i, CurBlock(s))
    ensures Safe(s.tasks, i, |s.tasks| - 1)
  {
    JoinShape(s);
    hide WF, Touched, Wrote, Safe, Joined, CurBlock;
    assert Ordered(s, war, i, |s.tasks| - 1, CurBlock(s));
  }

  lemma JoinKnown(s: State)
    requires WF(s) && s.pc.Join? && FragmentInv(s)
    ensures Joined(s).owner != |s.tasks| - 1 ==> WriterKnown(s, Joined(s), CurBlock(s))
  {
    hide Wrote, Safe, WriterKnown;
    assert Known(s, CurBlock(s));
  }

  lemma JoinIsSafe(s: State, war: bool)
    requires WF(s) && s.pc.Join? && Ready(s) && OrderInv(s, war) && FragmentInv(s)
    ensures JoinSafe(s)
  {
    JoinParts(s, war);
    hide *;
    JoinShape(s);
    JoinKnown(s);
    forall i: nat | i < |s.tasks| - 1 && Wrote(s, i, CurBlock(s))
      ensures Safe(s.tasks, i, |s.tasks| - 1) || Covers(s, Joined(s), i)
    {
      if Joined(s).owner == |s.tasks| - 1 { JoinOwn(s, war, i); } else { JoinOther(s, war, i); }
    }
    JoinsSafely(s);
  }

  lemma JoinsSafely(s: State)
    requires WF(s) && s.pc.Join? && s.tasks != [] && s.pc.p < |s.tasks[|s.tasks| - 1].acc|
    requires forall i: nat :: i < |s.tasks| - 1 && Wrote(s, i, CurBlock(s)) ==>
               Safe(s.tasks, i, |s.tasks| - 1) || Covers(s, Joined(s), i)
    ensures JoinSafe(s)
  {
    hide WF, Wrote, Safe, Covers, CurBlock, Joined;
  }

  // ---- the invariant is kept ------------------------------------------------

  lemma KnownGrows(s: State, s': State, e: Elem, b: int)
    requires WriterKnown(s, e, b) && HeldBack(s.tasks) && Grows(s.tasks, s'.tasks) && |s'.tasks| >= |s.tasks|
    requires |s'.elems| >= |s.elems| && forall m :: 0 <= m < |s.elems| ==> s'.elems[m].owner == s.elems[m].owner
    requires forall i: nat :: Wrote(s', i, b) ==> Wrote(s, i, b)
    ensures WriterKnown(s', e, b)
  {
    SafeAllGrow(s.tasks, s'.tasks);
    hide Safe, Grows, HeldBack;
    forall i: nat | Wrote(s', i, b)
      ensures || Released(s'.tasks[i])
              || (&& e.dep.Some? && e.dep.value < |s'.elems| && s'.elems[e.dep.value].owner < |s'.tasks|
                  && (i == s'.elems[e.dep.value].owner || Safe(s'.tasks, i, s'.elems[e.dep.value].owner)))
    {
      assert Wrote(s, i, b);
      GrowsReleased(s.tasks, s'.tasks, i);
    }
  }

  lemma GrowsReleased(ts: seq<Task>, ts': seq<Task>, i: nat)
    requires Grows(ts, ts') && i < |ts|
    ensures Released(ts[i]) ==> Released(ts'[i])
  {
  }

  lemma ReleasedGrows(s: State, s': State, b: int)
    requires WritersReleased(s, b) && Grows(s.tasks, s'.tasks)
    requires forall i: nat :: Wrote(s', i, b) ==> Wrote(s, i, b)
    ensures WritersReleased(s', b)
  {
    forall i: nat | Wrote(s', i, b) && i < |s'.tasks| ensures Released(s'.tasks[i]) {
      assert Wrote(s, i, b);
      WroteBound(s, i, b);
      GrowsReleased(s.tasks, s'.tasks, i);
    }
  }

  lemma WroteBound(s: State, i: nat, b: int)
    requires Wrote(s, i, b)
    ensures i < |s.tasks|
  {
  }

  lemma SameDep(s: State, e: Elem, e': Elem, b: int)
    requires WriterKnown(s, e, b) && e'.dep == e.dep
    ensures WriterKnown(s, e', b)
  {
    hide Wrote, Safe;
  }

  /** The two states differ by one step that does not write b. */
  ghost predicate Near(s: State, s': State, b: int) {
    && HeldBack(s.tasks) && Grows(s.tasks, s'.tasks) && |s'.elems| >= |s.elems|
    && (forall m :: 0 <= m < |s.elems| ==> s'.elems[m].owner == s.elems[m].owner && s'.elems[m].out == s.elems[m].out)
    && (forall i: nat :: Wrote(s', i, b) ==> Wrote(s, i, b))
    && b in s.table && b in s'.table && s'.table[b] == s.table[b] < |s.elems|
  }

  /** Of an element that is no longer, or not yet, the newest task's own. */
  lemma OthersKnown(s: State, s': State, b: int)
    requires Near(s, s', b) && Known(s, b) && !Own(s', s.table[b])
    requires s'.elems[s.table[b]].dep == s.elems[s.table[b]].dep
    requires Own(s, s.table[b]) ==> !Rewritten(Latest(s), s.pc.p, b)
    ensures Known(s', b)
  {
    var m := s.table[b];
    hide Wrote, Safe, Grows, HeldBack, Rewritten;
    if WritersReleased(s, b) {
      ReleasedGrows(s, s', b);
    } else {
      KnownGrows(s, s', s.elems[m], b);
      SameDep(s', s.elems[m], s'.elems[m], b);
    }
  }

  /** Of an element of the newest task: the access dealt with last, if any, is another. */
  lemma OwnKnown(s: State, s': State, b: int)
    requires Near(s, s', b) && Known(s, b) && Own(s, s.table[b]) && Own(s', s.table[b])
    requires s'.base == s.base && Latest(s') == Latest(s)
    requires Latest(s) != [] && s.table[b] == s.base + Latest(s)[0].arg && b == Latest(s)[0].block && HeadRead(Latest(s)) ==>
               s'.elems[s.table[b]].dep == s.elems[s.table[b]].dep
    requires Rewritten(Latest(s), s.pc.p, b) ==> Rewritten(Latest(s'), s'.pc.p, b)
    ensures Known(s', b)
  {
    var m := s.table[b];
    hide Wrote, Safe, Grows, HeldBack, Rewritten, HeadRead;
    if !Rewritten(Latest(s), s.pc.p, b) {
      if WritersReleased(s, b) {
        ReleasedGrows(s, s', b);
      } else {
        KnownGrows(s, s', s.elems[m], b);
        SameDep(s', s.elems[m], s'.elems[m], b);
      }
    }
  }

  lemma Nearby(s: State, s': State, b: int)
    requires SameAnalysis(s, s') && HeldBack(s.tasks) && Grows(s.tasks, s'.tasks) && b in s.table && s.table[b] < |s.elems|
    ensures Near(s, s', b)
  {
    SameTouched(s, s');
    hide Touched, Wrote, Safe, Grows, HeldBack;
  }

  /** From one step of the analysis to the next, or past its end. */
  ghost predicate Onward(s: State, s': State) {
    || (Analysing(s.pc) && Analysing(s'.pc) && s'.pc.p == s.pc.p)
    || (!Analysing(s.pc) && !Analysing(s'.pc))
    || (s.tasks != [] && Analysing(s.pc) && s.pc.p == |Latest(s)| && !Analysing(s'.pc))
  }

  lemma SteadyKnown(s: State, s': State)
    requires SameAnalysis(s, s') && HeldBack(s.tasks) && Grows(s.tasks, s'.tasks) && WritersKnown(s) && Onward(s, s')
    ensures WritersKnown(s')
  {
    hide Touched, Wrote, Safe, Grows, HeldBack, Known, Near;
    forall b | b in s'.table && s'.table[b] < |s'.elems| && !s'.elems[s'.table[b]].out ensures Known(s', b) {
      Nearby(s, s', b);
      if Own(s', s.table[b]) { OwnKnown(s, s', b); } else { OthersKnown(s, s', b); }
    }
  }

  lemma FinishedOnce(s: State, s': State)
    requires SameAnalysis(s, s') && WritersKnown(s) && InForceOnce(s) && Onward(s, s')
    ensures InForceOnce(s')
  {
    hide WritersReleased, WriterKnown;
    forall b, c | b in s'.table && c in s'.table && s'.table[b] == s'.table[c] < |s'.elems| && !s'.elems[s'.table[b]].out
                  && !Own(s', s'.table[b])
      ensures b == c
    {
      assert Known(s, b) && Known(s, c);
    }
  }

  /** Steps that leave the table, the elements and the analysed accesses alone. */
  lemma SteadyFragment(s: State, s': State)
    requires SameAnalysis(s, s') && HeldBack(s.tasks) && Grows(s.tasks, s'.tasks) && FragmentInv(s)
    requires s'.pc == s.pc || (s.pc.Walk? && s'.pc.Walk?) || (!Analysing(s'.pc) && Onward(s, s') && !s.pc.Join?)
    requires s.pc == s'.pc ==> forall k :: 0 <= k < |s.tasks| ==> s'.tasks[k].last == s.tasks[k].last
    ensures FragmentInv(s')
  {
    SteadyKnown(s, s');
    FinishedOnce(s, s');
    SameTouched(s, s');
    hide Touched, Wrote, Safe, Grows, HeldBack, WritersKnown, InForceOnce;
  }

  lemma SpawnKnown(s: State, args: seq<Arg>)
    requires WF(s) && s.pc.Idle? && HeldBack(s.tasks) && WritersKnown(s)
    ensures WritersKnown(Do(s, Spawn(args)))
  {
    var s' := Do(s, Spawn(args));
    SpawnTouched(s, args);
    assert Grows(s.tasks, s'.tasks) by { hide WritersKnown, WF, HeldBack; }
    hide Touched, Wrote, Safe, Grows, HeldBack, WriterKnown;
    forall b | b in s'.table && s'.table[b] < |s'.elems| && !s'.elems[s'.table[b]].out ensures Known(s', b) {
      assert Known(s, b) && ElemOk(s.elems[s.table[b]], s.elems, |s.tasks|);
      KnownGrows(s, s', s.elems[s.table[b]], b);
    }
  }

  lemma SpawnFragment(s: State, args: seq<Arg>)
    requires WF(s) && s.pc.Idle? && HeldBack(s.tasks) && FragmentInv(s) && RawSafeArgs(args)
    ensures FragmentInv(Do(s, Spawn(args)))
  {
    var s' := Do(s, Spawn(args));
    SpawnTouched(s, args);
    SpawnKnown(s, args);
    hide Touched, WritersKnown, HeldBack, Accesses, RawSafe;
  }

  /** An access to block c, dealt with: only c's element may have changed, and only an IN
      access changes what its own element remembers. */
  ghost predicate Settles(s: State, s': State, c: int, out: bool) {
    && Advanced(s, s', c, out) && HeldBack(s.tasks) && Grows(s.tasks, s'.tasks) && s'.base == s.base
    && (forall m :: 0 <= m < |s.elems| ==> s'.elems[m].readers == s.elems[m].readers)
    && (forall m :: 0 <= m < |s.elems| ==>
          s'.elems[m].dep == s.elems[m].dep || (!out && m == s.base + Latest(s)[s.pc.p].arg && Own(s, m)))
    && s'.elems[s'.table[c]].out == out
    && (Own(s, s'.table[c]) || (c in s.table && s'.table[c] == s.table[c]))
  }

  lemma RewrittenLater(acc: seq<Access>, p: nat, b: int)
    requires p < |acc| && Rewritten(acc, p, b) && (acc[p].block != b || !acc[p].out)
    ensures Rewritten(acc, p + 1, b)
  {
  }

  /** Blocks that the access does not concern. */
  lemma OtherBlocks(s: State, s': State, c: int, out: bool, b: int)
    requires Settles(s, s', c, out) && b != c && b in s.table && s.table[b] < |s.elems| && Known(s, b)
    ensures Known(s', b)
  {
    AdvancedTouched(s, s', c, out);
    assert Near(s, s', b) by { hide Touched, Wrote, Safe, Grows, HeldBack; }
    hide Touched, Wrote, Safe, Grows, HeldBack, Known, Near, Rewritten;
    if Own(s, s.table[b]) {
      if Rewritten(Latest(s), s.pc.p, b) { RewrittenLater(Latest(s), s.pc.p, b); }
      OwnKnown(s, s', b);
    } else {
      OthersKnown(s, s', b);
    }
  }

  lemma SettledKnown(s: State, s': State, c: int, out: bool)
    requires Settles(s, s', c, out) && WritersKnown(s) && (!out ==> Known(s', c))
    ensures WritersKnown(s')
  {
    hide Touched, Wrote, Safe, Grows, HeldBack, Known;
    forall b | b in s'.table && s'.table[b] < |s'.elems| && !s'.elems[s'.table[b]].out ensures Known(s', b) {
      if b != c { OtherBlocks(s, s', c, out, b); }
    }
  }

  lemma SettledHead(s: State, s': State, c: int, out: bool)
    requires Settles(s, s', c, out) && HeadKept(s)
    ensures HeadKept(s')
  {
    hide Touched, Wrote, Safe, Grows, HeldBack;
    if HeadRead(Latest(s)) && c == Latest(s)[0].block { assert !out; }
  }

  lemma SettledReaders(s: State, s': State, c: int, out: bool)
    requires Settles(s, s', c, out) && ReadersUse(s) && (s.pc.Join? ==> CurBlock(s) == c)
    requires !out ==> forall r <- s'.elems[s'.table[c]].readers :: Touched(s', r, c)
    ensures ReadersUse(s')
  {
    AdvancedTouched(s, s', c, out);
    hide Touched, Wrote, Safe, Grows, HeldBack;
  }

  lemma SettledOnce(s: State, s': State, c: int, out: bool)
    requires Settles(s, s', c, out) && InForceOnce(s)
    ensures InForceOnce(s')
  {
    hide Grows, HeldBack;
  }

  lemma AccessFragment(s: State, s': State, c: int, out: bool)
    requires FragmentInv(s) && Settles(s, s', c, out) && (s.pc.Join? ==> CurBlock(s) == c)
    requires !out ==> Known(s', c) && forall r <- s'.elems[s'.table[c]].readers :: Touched(s', r, c)
    ensures FragmentInv(s')
  {
    hide Touched, Known;
    SettledKnown(s, s', c, out);
    SettledHead(s, s', c, out);
    SettledReaders(s, s', c, out);
    SettledOnce(s, s', c, out);
    hide WritersKnown, ReadersUse, InForceOnce, HeadKept, Grows, HeldBack;
  }

  lemma OutShape(s: State, c: Access)
    requires AtAccess(s, c) && c.out && AnalyseOut(s, c).pc.Scan?
    ensures var s' := AnalyseOut(s, c);
      && Advanced(s, s', c.block, true) && s'.elems == s.elems && s'.table[c.block] == s.base + c.arg && s'.base == s.base
      && s'.elems[s.base + c.arg].out && Own(s, s.base + c.arg)
      && s'.tasks == if c.block in s.table
                     then Attempt(s, s.elems[s.table[c.block]].owner, s.elems[s.table[c.block]].owner).tasks
                     else s.tasks
  {
  }

  /** OUT accesses that finish at once. */
  lemma OutFragment(s: State, c: Access, war: bool)
    requires AtAccess(s, c) && c.out && Ready(s) && OrderInv(s, war) && FragmentInv(s) && AnalyseOut(s, c).pc.Scan?
    ensures FragmentInv(AnalyseOut(s, c))
  {
    var s' := AnalyseOut(s, c);
    OutShape(s, c);
    SameGrows(s.tasks);
    if c.block in s.table { AttemptOrders(s, s.elems[s.table[c.block]].owner); }
    hide AnalyseOut, Grows, HeldBack, OrderInv, Attempt, Skips, FragmentInv;
    AccessFragment(s, s', c.block, true);
  }

  lemma EnterWalkShape(s: State, c: Access)
    requires AtAccess(s, c) && c.out && AnalyseOut(s, c).pc.Walk?
    ensures var s' := AnalyseOut(s, c);
      && s'.tasks == s.tasks && s'.elems == s.elems && s'.base == s.base && s'.pc.p == s.pc.p && s.pc.Scan?
      && s'.table == s.table[c.block := s.base + c.arg] && s.elems[s.base + c.arg].out
      && Latest(s)[s.pc.p] == c && Grows(s.tasks, s'.tasks)
      && forall i: nat, b :: Touched(s', i, b) == Touched(s, i, b) && Wrote(s', i, b) == Wrote(s, i, b)
  {
    var s' := AnalyseOut(s, c);
    assert s'.tasks == s.tasks && s'.elems == s.elems;
    assert forall i: nat :: i < |s.tasks| ==> Analysed(s', i) == Analysed(s, i);
  }

  lemma EnterWalkFragment(s: State, c: Access)
    requires AtAccess(s, c) && c.out && FragmentInv(s) && HeldBack(s.tasks) && AnalyseOut(s, c).pc.Walk?
    ensures FragmentInv(AnalyseOut(s, c))
  {
    var s' := AnalyseOut(s, c);
    EnterWalkShape(s, c);
    hide Touched, Wrote, Safe, Grows, HeldBack, AnalyseOut, AtAccess, Known;
    assert forall b :: b in s.table && b in s'.table && s'.table[b] == s.table[b] < |s.elems| ==> Near(s, s', b);
    hide Near;
    forall b | b in s'.table && s'.table[b] < |s'.elems| && !s'.elems[s'.table[b]].out ensures Known(s', b) {
      if Own(s, s.table[b]) { OwnKnown(s, s', b); } else { OthersKnown(s, s', b); }
    }
    if s'.pc.p > 0 && HeadRead(Latest(s)) { assert c.block != Latest(s)[0].block; }
  }

  lemma LeaveWalkShape(s: State)
    requires s.pc.Walk? && s.tasks != [] && s.pc.rest == [] && s.pc.p < |s.tasks[|s.tasks| - 1].acc| && BranchOk(s)
    requires MineOk(s.tasks[|s.tasks| - 1].acc, s.elems, s.base, |s.tasks| - 1)
    ensures var s' := DoReader(s);
      && Advanced(s, s', CurBlock(s), true) && s'.elems == s.elems && s'.elems[s'.table[CurBlock(s)]].out
      && s'.tasks == s.tasks && s'.base == s.base && s'.table == s.table
  {
    assert s.table == s.table[CurBlock(s) := s.table[CurBlock(s)]];
  }

  lemma ReaderFragment(s: State, war: bool)
    requires WF(s) && s.pc.Walk? && Ready(s) && OrderInv(s, war) && FragmentInv(s)
    ensures FragmentInv(DoReader(s))
  {
    if s.pc.rest != [] {
      AttemptOrders(s, s.pc.rest[0]);
      ReaderShape(s);
      hide Touched, Wrote, Safe, Grows, HeldBack, WF, OrderInv, DoReader, Attempt, FragmentInv;
      SteadyFragment(s, DoReader(s));
    } else {
      LeaveWalkShape(s);
      SameGrows(s.tasks);
      hide Touched, Wrote, Safe, Grows, HeldBack, OrderInv, DoReader, FragmentInv;
      AccessFragment(s, DoReader(s), CurBlock(s), true);
    }
  }

  lemma EnterJoinShape(s: State, c: Access)
    requires AtAccess(s, c) && !c.out && AnalyseIn(s, c).pc.Join?
    ensures s.tasks != [] && s.pc.Scan? && Analysing(s.pc) && Analysing(AnalyseIn(s, c).pc) && s.pc.p < |Latest(s)|
    ensures var s' := AnalyseIn(s, c);
      && s'.tasks == s.tasks && s'.table == s.table && s'.base == s.base && s'.pc == Join(s.pc.p, s.pc.n)
      && s.pc.Scan? && Latest(s)[s.pc.p] == c
      && c.block in s.table && s.table[c.block] < |s.elems| && !s.elems[s.table[c.block]].out
      && s'.elems == s.elems[s.table[c.block] := s.elems[s.table[c.block]].(readers := [|s.tasks| - 1] + s.elems[s.table[c.block]].readers)]
      && Grows(s.tasks, s'.tasks)
      && forall i: nat, b :: Touched(s', i, b) == Touched(s, i, b) && Wrote(s', i, b) == Wrote(s, i, b)
  {
    var s' := AnalyseIn(s, c);
    assert forall i: nat :: i < |s.tasks| ==> Analysed(s', i) == Analysed(s, i);
  }

  lemma EnterJoinKnown(s: State, s': State, m: nat)
    requires s'.tasks == s.tasks && s'.table == s.table && s'.base == s.base && HeldBack(s.tasks) && Grows(s.tasks, s'.tasks)
    requires Analysing(s.pc) && Analysing(s'.pc) && s'.pc.p == s.pc.p && m < |s.elems| == |s'.elems|
    requires forall k :: 0 <= k < |s.elems| ==>
      s'.elems[k].owner == s.elems[k].owner && s'.elems[k].out == s.elems[k].out && s'.elems[k].dep == s.elems[k].dep
    requires forall i: nat, b :: Wrote(s', i, b) == Wrote(s, i, b)
    requires WritersKnown(s)
    ensures WritersKnown(s')
  {
    hide Wrote, Safe, Grows, HeldBack, Known;
    assert forall b :: b in s.table && s.table[b] < |s.elems| ==> Near(s, s', b);
    hide Near;
    forall b | b in s'.table && s'.table[b] < |s'.elems| && !s'.elems[s'.table[b]].out ensures Known(s', b) {
      if Own(s, s.table[b]) { OwnKnown(s, s', b); } else { OthersKnown(s, s', b); }
    }
  }

  lemma EnterJoinReaders(s: State, s': State, c: Access)
    requires s.tasks != [] && s'.tasks == s.tasks && s'.table == s.table && s.pc.Scan? && s'.pc == Join(s.pc.p, s.pc.n)
    requires s.pc.p < |Latest(s)| && Latest(s)[s.pc.p] == c && c.block in s.table && s.table[c.block] < |s.elems|
    requires !s.elems[s.table[c.block]].out && ElemsOk(s.elems, |s.tasks|)
    requires s'.elems == s.elems[s.table[c.block] := s.elems[s.table[c.block]].(readers := [|s.tasks| - 1] + s.elems[s.table[c.block]].readers)]
    requires forall i: nat, b :: Touched(s', i, b) == Touched(s, i, b)
    requires ReadersUse(s) && InForceOnce(s)
    ensures ReadersUse(s')
  {
    hide Touched;
    var m := s.table[c.block];
    forall b | b in s'.table && s'.table[b] < |s'.elems| && !s'.elems[s'.table[b]].out
      ensures forall r <- s'.elems[s'.table[b]].readers ::
                Touched(s', r, b) || (r == |s.tasks| - 1 && CurBlock(s') == b)
    {
      assert ElemOk(s.elems[s.table[b]], s.elems, |s.tasks|);
      if s.table[b] == m && b != c.block { assert Own(s, m); }
    }
  }

  lemma EnterJoinFragment(s: State, c: Access)
    requires AtAccess(s, c) && !c.out && FragmentInv(s) && Ready(s) && AnalyseIn(s, c).pc.Join? && ElemsOk(s.elems, |s.tasks|)
    ensures FragmentInv(AnalyseIn(s, c))
  {
    ReadyHolds(s);
    hide *;
    var s' := AnalyseIn(s, c);
    EnterJoinShape(s, c);
    FragmentParts(s);
    EnterJoinKnown(s, s', s.table[c.block]);
    EnterJoinReaders(s, s', c);
    EnterJoinRest(s, s', c);
  }

  lemma FragmentParts(s: State)
    requires FragmentInv(s)
    ensures WritersKnown(s) && ReadersUse(s) && InForceOnce(s)
  {
    hide WritersKnown, ReadersUse, InForceOnce, HeadKept, FirstOk, AllRawSafe;
  }

  lemma EnterJoinRest(s: State, s': State, c: Access)
    requires s.tasks != [] && s'.tasks == s.tasks && s'.table == s.table && s'.base == s.base && s.pc.Scan? && s'.pc == Join(s.pc.p, s.pc.n)
    requires c.block in s.table && s.table[c.block] < |s.elems| && !s.elems[s.table[c.block]].out
    requires s'.elems == s.elems[s.table[c.block] := s.elems[s.table[c.block]].(readers := [|s.tasks| - 1] + s.elems[s.table[c.block]].readers)]
    requires FragmentInv(s) && WritersKnown(s') && ReadersUse(s')
    ensures FragmentInv(s')
  {
    hide WritersKnown, ReadersUse, HeadRead;
  }

  lemma JoinFragment(s: State, war: bool)
    requires WF(s) && s.pc.Join? && Ready(s) && OrderInv(s, war) && FragmentInv(s) && HeldBack(DoJoinPush(s).tasks)
    ensures FragmentInv(DoJoinPush(s))
  {
    var s' := DoJoinPush(s);
    JoinParts(s, war);
    JoinShape(s);
    JoinIsSafe(s, war);
    JoinPushSafe(s);
    JoinDone(s);
    hide WF, Touched, Wrote, Safe, Grows, HeldBack, OrderInv, JoinSafe, DoJoinPush, FragmentInv, Known;
    AccessFragment(s, s', CurBlock(s), false);
  }

  lemma JoinDone(s: State)
    requires WF(s) && s.pc.Join? && Ready(s) && FragmentInv(s) && BranchOk(s)
    requires Grows(s.tasks, DoJoinPush(s).tasks) && |DoJoinPush(s).tasks| == |s.tasks|
    ensures s.tasks != [] && Analysing(s.pc) && s.pc.p < |s.tasks[|s.tasks| - 1].acc|
    ensures var s' := DoJoinPush(s); var b := CurBlock(s);
      && b in s'.table && s'.table[b] < |s'.elems| && Settles(s, s', b, false) && Known(s', b)
      && forall r <- s'.elems[s'.table[b]].readers :: Touched(s', r, b)
  {
    hide *;
    ReadyHolds(s);
    JoinSettles(s);
    JoinKnows(s);
    JoinStays(s);
    JoinReaders(s, DoJoinPush(s));
  }

  lemma JoinSettles(s: State)
    requires WF(s) && s.pc.Join? && BranchOk(s) && HeldBack(s.tasks)
    requires Grows(s.tasks, DoJoinPush(s).tasks) && |DoJoinPush(s).tasks| == |s.tasks|
    ensures s.tasks != [] && Analysing(s.pc) && s.pc.p < |Latest(s)| == |s.tasks[|s.tasks| - 1].acc|
    ensures var s' := DoJoinPush(s); var b := CurBlock(s);
      && Settles(s, s', b, false) && Advanced(s, s', b, false) && Near(s, s', b)
      && s'.table == s.table && s'.elems == s.elems && s'.base == s.base && Latest(s') == Latest(s)
      && s'.pc.p == s.pc.p + 1 && (forall m :: Own(s', m) == Own(s, m)) && (Latest(s)[s.pc.p].block != b || !Latest(s)[s.pc.p].out)
  {
    JoinShape(s);
    AdvancedTouched(s, DoJoinPush(s), CurBlock(s), false);
    hide WF, Touched, Wrote, Grows, HeldBack, DoJoinPush;
  }

  lemma JoinStays(s: State)
    requires WF(s) && s.pc.Join? && BranchOk(s) && HeldBack(s.tasks) && s.tasks != [] && s.pc.p < |s.tasks[|s.tasks| - 1].acc|
    requires Analysing(s.pc) && Grows(s.tasks, DoJoinPush(s).tasks) && |DoJoinPush(s).tasks| == |s.tasks|
    requires var b := CurBlock(s); b in s.table && s.table[b] < |s.elems| && Known(s, b)
    ensures var s' := DoJoinPush(s); var b := CurBlock(s); b in s'.table && s'.table[b] < |s'.elems| && Known(s', b)
  {
    hide *;
    JoinSettles(s);
    var s', b := DoJoinPush(s), CurBlock(s);
    if Own(s, s.table[b]) {
      if Rewritten(Latest(s), s.pc.p, b) { RewrittenLater(Latest(s), s.pc.p, b); }
      OwnKnown(s, s', b);
    } else {
      OthersKnown(s, s', b);
    }
  }

  lemma JoinReaders(s: State, s': State)
    requires s.tasks != [] && Analysing(s.pc) && s.pc.p < |s.tasks[|s.tasks| - 1].acc|
    requires var b := CurBlock(s);
      && Advanced(s, s', b, false) && b in s.table && s.table[b] < |s.elems| && s'.table == s.table && s'.elems == s.elems
      && forall r <- s.elems[s.table[b]].readers :: Touched(s, r, b) || r == |s.tasks| - 1
    ensures var b := CurBlock(s); forall r <- s'.elems[s'.table[b]].readers :: Touched(s', r, b)
  {
    AdvancedTouched(s, s', CurBlock(s), false);
    hide Touched, Wrote, Advanced;
  }

  /** What the invariant says of the block of a join. */
  lemma JoinKnows(s: State)
    requires WF(s) && s.pc.Join? && s.tasks != [] && s.pc.p < |s.tasks[|s.tasks| - 1].acc| && FragmentInv(s) && BranchOk(s)
    ensures var b := CurBlock(s);
      && b in s.table && s.table[b] < |s.elems| && Known(s, b)
      && forall r <- s.elems[s.table[b]].readers :: Touched(s, r, b) || r == |s.tasks| - 1
  {
    hide Known, Touched, HeadKept, InForceOnce;
  }

  lemma InShape(s: State, c: Access)
    requires AtAccess(s, c) && !c.out && AnalyseIn(s, c).pc.Scan?
    ensures var s' := AnalyseIn(s, c); var mine := s.base + c.arg;
      && Advanced(s, s', c.block, false) && s'.table[c.block] == mine && s'.base == s.base && Own(s, mine) && Own(s', mine)
      && Latest(s)[s.pc.p] == c && Latest(s') == Latest(s)
      && s'.elems[mine].readers == s.elems[mine].readers && !s'.elems[mine].out
      && (forall m :: 0 <= m < |s.elems| && m != mine ==> s'.elems[m] == s.elems[m])
      && (c.block !in s.table ==> s'.tasks == s.tasks)
      && (c.block in s.table ==>
            var e := s.elems[s.table[c.block]];
            if e.out then
              && s'.tasks == Attempt(s, e.owner, e.owner).tasks
              && (!Skips(s, e.owner, e.owner) ==> s'.elems[mine].dep == Some(s.table[c.block]))
            else s'.tasks == s.tasks && !OwnerAlive(s, s.table[c.block]))
  {
  }

  lemma AccessFacts(s: State, c: Access, war: bool)
    requires WF(s) && AtAccess(s, c) && !c.out && Ready(s) && OrderInv(s, war) && FragmentInv(s)
    ensures CanAnalyse(s, c) && RawSafe(Latest(s)) && LastsOk(s.tasks) && FirstOk(s) && HeadKept(s) && HeldBack(s.tasks)
    ensures ElemsOk(s.elems, |s.tasks|)
    ensures s.tasks != [] && s.pc.Scan? && s.pc.p < |Latest(s)| && Latest(s)[s.pc.p] == c
    ensures s.base + c.arg < |s.elems| && s.elems[s.base + c.arg].owner == |s.tasks| - 1
    ensures Within(s.elems[s.base + c.arg].readers, |s.tasks| - 1, |s.tasks|)
  {
    hide OrderInv, WritersKnown, ReadersUse, InForceOnce, HeldBack, PhasesOk;
    assert LastsOk(s.tasks) by { OrderParts(s, war); }
    var e := s.elems[s.base + c.arg];
    assert ElemOk(e, s.elems, |s.tasks|);
    assert RawSafe(s.tasks[|s.tasks| - 1].acc);
  }

  lemma InGrows(s: State, c: Access)
    requires AtAccess(s, c) && !c.out && Ready(s) && LastsOk(s.tasks) && AnalyseIn(s, c).pc.Scan?
    ensures Grows(s.tasks, AnalyseIn(s, c).tasks)
  {
    InShape(s, c);
    SameGrows(s.tasks);
    if c.block in s.table && s.elems[s.table[c.block]].out { AttemptOrders(s, s.elems[s.table[c.block]].owner); }
    hide AnalyseIn, Grows, Attempt;
  }

  /** IN accesses that put an element of their own in force. */
  lemma InFragment(s: State, c: Access, war: bool)
    requires WF(s) && AtAccess(s, c) && !c.out && Ready(s) && OrderInv(s, war) && FragmentInv(s) && AnalyseIn(s, c).pc.Scan?
    ensures FragmentInv(AnalyseIn(s, c))
  {
    hide *;
    AccessFacts(s, c, war);
    var s' := AnalyseIn(s, c);
    InShape(s, c);
    InGrows(s, c);
    AdvancedTouched(s, s', c.block, false);
    InSettles(s, s', c);
    InKnown(s, s', c, war);
    AccessFragment(s, s', c.block, false);
  }

  lemma InSettles(s: State, s': State, c: Access)
    requires s.tasks != [] && s.pc.Scan? && Advanced(s, s', c.block, false) && HeldBack(s.tasks) && Grows(s.tasks, s'.tasks) && s'.base == s.base
    requires s.pc.p < |Latest(s)| && Latest(s)[s.pc.p] == c && s'.table[c.block] == s.base + c.arg && Own(s, s.base + c.arg)
    requires s.base + c.arg < |s.elems| && s'.elems[s.base + c.arg].readers == s.elems[s.base + c.arg].readers && !s'.elems[s.base + c.arg].out
    requires forall m :: 0 <= m < |s.elems| && m != s.base + c.arg ==> s'.elems[m] == s.elems[m]
    requires Within(s.elems[s.base + c.arg].readers, |s.tasks| - 1, |s.tasks|)
    requires forall i: nat, b :: Touched(s', i, b) == (Touched(s, i, b) || (i == |s.tasks| - 1 && b == c.block))
    ensures Settles(s, s', c.block, false) && !s.pc.Join?
    ensures forall r <- s'.elems[s'.table[c.block]].readers :: Touched(s', r, c.block)
  {
    hide Touched, Wrote, Grows, HeldBack;
  }

  lemma InKnown(s: State, s': State, c: Access, war: bool)
    requires WF(s) && AtAccess(s, c) && !c.out && Ready(s) && OrderInv(s, war) && FragmentInv(s) && AnalyseIn(s, c).pc.Scan?
    requires s' == AnalyseIn(s, c) && s.tasks != [] && s.pc.Scan? && c.block in s'.table && s'.table[c.block] < |s'.elems|
    ensures Known(s', c.block)
  {
    hide *;
    AccessFacts(s, c, war);
    InShape(s, c);
    InGrows(s, c);
    AdvancedTouched(s, s', c.block, false);
    var acc, p := Latest(s), s.pc.p;
    ReadLater(acc, p);
    if Rewritten(acc, p + 1, c.block) {
      PendingKnown(s', c.block, s);
    } else if p == 0 {
      NothingTouched(s, war);
      HeadKnown(s, s', c, war);
      HeadIsKnown(s, s', c);
    } else {
      DeadHead(s, c, war);
      ReleasedGrows(s, s', c.block);
      ReleasedKnown(s, s', c);
    }
  }

  lemma ReadLater(acc: seq<Access>, p: nat)
    requires RawSafe(acc) && p < |acc| && !acc[p].out
    ensures Rewritten(acc, p + 1, acc[p].block) || (HeadRead(acc) && acc[p].block == acc[0].block)
  {
    if Rewritten(acc, p, acc[p].block) { RewrittenLater(acc, p, acc[p].block); }
  }

  lemma PendingKnown(s': State, b: int, s: State)
    requires s.tasks != [] && s'.tasks != [] && Latest(s') == Latest(s) && s.pc.Scan? && b in s'.table && s'.table[b] < |s'.elems|
    requires Own(s', s'.table[b]) && s'.pc.Scan? && s'.pc.p == s.pc.p + 1 && Rewritten(Latest(s), s.pc.p + 1, b)
    ensures Known(s', b)
  {
    hide Rewritten;
  }

  lemma HeadIsKnown(s: State, s': State, c: Access)
    requires s.tasks != [] && s.pc.Scan? && s.pc.p == 0 && Latest(s) != [] && Latest(s)[0] == c && HeadRead(Latest(s))
    requires c.block in s'.table && s'.table[c.block] == s.base + c.arg < |s'.elems| && s'.base == s.base
    requires Own(s', s'.table[c.block]) && Latest(s') == Latest(s)
    requires WriterKnown(s', s'.elems[s'.table[c.block]], c.block)
    ensures Known(s', c.block)
  {
    hide HeadRead, WriterKnown;
  }

  lemma ReleasedKnown(s: State, s': State, c: Access)
    requires s.tasks != [] && HeadRead(Latest(s)) && c.block == Latest(s)[0].block
    requires c.block in s'.table && s'.table[c.block] < |s'.elems| && Own(s', s'.table[c.block]) && Latest(s') == Latest(s)
    requires WritersReleased(s', c.block)
    ensures Known(s', c.block)
  {
    hide HeadRead, WritersReleased;
  }

  lemma NothingTouched(s: State, war: bool)
    requires s.tasks != [] && s.pc.Scan? && s.pc.p == 0 && OrderInv(s, war)
    ensures forall b :: b in s.table ==> s.table[b] < |s.elems| && s.elems[s.table[b]].owner < |s.tasks| - 1
  {
    forall b | b in s.table ensures s.table[b] < |s.elems| && s.elems[s.table[b]].owner < |s.tasks| - 1 {
      assert TabOk(s, war, b);
      assert Touched(s, s.elems[s.table[b]].owner, b);
    }
  }

  /** The first access, an IN one that finds a writer, no element, or a list to replace. */
  lemma HeadKnown(s: State, s': State, c: Access, war: bool)
    requires AtAccess(s, c) && !c.out && Ready(s) && OrderInv(s, war) && FirstOk(s) && s.pc.p == 0 && ElemsOk(s.elems, |s.tasks|)
    requires Advanced(s, s', c.block, false) && Grows(s.tasks, s'.tasks)
    requires forall i: nat, b :: Wrote(s', i, b) == (Wrote(s, i, b) || (i == |s.tasks| - 1 && b == c.block && false))
    requires c.block in s.table ==> s.table[c.block] < |s.elems| && s.elems[s.table[c.block]].owner < |s.tasks| - 1
    requires c.block in s.table ==>
               var e := s.elems[s.table[c.block]];
               if e.out then !Skips(s, e.owner, e.owner) ==> s'.elems[s'.table[c.block]].dep == Some(s.table[c.block])
               else !OwnerAlive(s, s.table[c.block])
    ensures WriterKnown(s', s'.elems[s'.table[c.block]], c.block)
  {
    var b := c.block;
    SafeAllGrow(s.tasks, s'.tasks);
    forall i: nat | Wrote(s', i, b) && !Released(s'.tasks[i])
      ensures b in s.table && s'.elems[s'.table[b]].dep == Some(s.table[b])
      ensures i == s.elems[s.table[b]].owner || Safe(s'.tasks, i, s.elems[s.table[b]].owner)
    {
      WriterBehind(s, b, i, war);
      GrowsReleased(s.tasks, s'.tasks, i);
    }
  }

  /** An unreleased earlier writer of b is the owner of the writer element in force,
      or ordered before it, and that owner still takes pushes. */
  lemma {:induction false} WriterBehind(s: State, b: int, i: nat, war: bool)
    requires Ready(s) && OrderInv(s, war) && s.pc.Scan? && ElemsOk(s.elems, |s.tasks|)
    requires s.tasks != [] && Wrote(s, i, b)
    ensures b in s.table && s.table[b] < |s.elems| && s.elems[s.table[b]].owner < |s.tasks|
    ensures var e := s.elems[s.table[b]];
      && (!Released(s.tasks[i]) && e.out && e.owner != |s.tasks| - 1 && s.tasks[|s.tasks| - 1].last == None ==>
            !Skips(s, e.owner, e.owner) && (i == e.owner || Safe(s.tasks, i, e.owner)))
      && (!Released(s.tasks[i]) && !e.out ==> OwnerAlive(s, s.table[b]))
  {
    WroteTouched(s);
    hide Touched, Wrote;
    assert Touched(s, i, b);
    assert TabOk(s, war, b);
    var e := s.elems[s.table[b]];
    assert ElemOk(e, s.elems, |s.tasks|) && PhaseOk(s.tasks[e.owner]) && Relevant(s, war, i, b);
    if !Released(s.tasks[i]) {
      if InForce(e, i) {
        if !e.out { OwnerIsLast(s, b, i); }
      } else if Started(s.tasks[e.owner]) {
        SafeStarted(s.tasks, i, e.owner);
      }
    }
  }

  /** A later read of the block that the list begins with replaces a list of readers
      only when the writers of the block are released. */
  lemma DeadHead(s: State, c: Access, war: bool)
    requires WF(s) && AtAccess(s, c) && !c.out && Ready(s) && OrderInv(s, war) && HeadKept(s) && AnalyseIn(s, c).pc.Scan?
    requires s.tasks != [] && s.pc.Scan? && s.pc.p > 0 && HeadRead(Latest(s)) && c.block == Latest(s)[0].block
    ensures WritersReleased(s, c.block)
  {
    InShape(s, c);
    hide OrderInv, HeldBack, AnalyseIn, Touched, Wrote, HeadRead, Ready;
    forall i: nat | Wrote(s, i, c.block) && i < |s.tasks| ensures Released(s.tasks[i]) {
      WriterBehind(s, c.block, i, war);
    }
  }

  // ---- every step, every run ------------------------------------------------

  /** Which branch the analysis of the next access takes. */
  lemma AnalyseBranch(s: State, c: Access)
    requires WF(s) && Enabled(s, Analyse) && Ready(s) && c == s.tasks[|s.tasks| - 1].acc[s.pc.p]
    ensures AtAccess(s, c) && HeldBack(s.tasks) && Do(s, Analyse) == if c.out then AnalyseOut(s, c) else AnalyseIn(s, c)
    ensures c.out ==> AnalyseOut(s, c).pc.Walk? || AnalyseOut(s, c).pc.Scan?
    ensures !c.out ==> AnalyseIn(s, c).pc.Join? || AnalyseIn(s, c).pc.Scan?
  {
    ScanFacts(s);
    assert ElemOk(s.elems[s.base + c.arg], s.elems, |s.tasks|);
    hide HeldBack, PhasesOk;
  }

  lemma AnalyseFragment(s: State, war: bool)
    requires WF(s) && Enabled(s, Analyse) && Ready(s) && OrderInv(s, war) && FragmentInv(s)
    ensures FragmentInv(Do(s, Analyse))
  {
    var c := s.tasks[|s.tasks| - 1].acc[s.pc.p];
    hide *;
    AnalyseBranch(s, c);
    if c.out {
      if AnalyseOut(s, c).pc.Walk? { EnterWalkFragment(s, c); } else { OutFragment(s, c, war); }
    } else {
      if AnalyseIn(s, c).pc.Join? { EnterJoinFragment(s, c); } else { InFragment(s, c, war); }
    }
  }

  lemma QuietFragment(s: State, a: Step)
    requires WF(s) && CountInv(s) && FragmentInv(s) && Enabled(s, a) && IsQuiet(a)
    ensures FragmentInv(Do(s, a))
  {
    StepFacts(s);
    hide *;
    QuietSteps(s, a);
    QuietStays(s, a);
    SteadyFragment(s, Do(s, a));
  }

  lemma QuietStays(s: State, a: Step)
    requires WF(s) && Enabled(s, a) && IsQuiet(a)
    ensures var s' := Do(s, a); s'.pc == s.pc || (!Analysing(s'.pc) && Onward(s, s') && !s.pc.Join?)
  {
    QuietShape(s, a);
    QuietJoin(s, a);
    hide WF, Do;
  }

  lemma QuietJoin(s: State, a: Step)
    requires WF(s) && Enabled(s, a) && IsQuiet(a)
    ensures s.pc.Join? ==> Do(s, a).pc == s.pc
  {
    hide WF;
  }

  lemma StepFragment(s: State, a: Step, war: bool)
    requires WF(s) && CountInv(s) && OrderInv(s, war) && FragmentInv(s) && Enabled(s, a)
    requires a.Spawn? ==> RawSafeArgs(a.args)
    ensures FragmentInv(Do(s, a))
  {
    CountHoldsBack(s);
    StepKeeps(s, a);
    CountHoldsBack(Do(s, a));
    assert Ready(s);
    hide OrderInv, HeldBack, CountInv, FragmentInv;
    if a.Spawn? { SpawnFragment(s, a.args); }
    else if a.Analyse? { AnalyseFragment(s, war); }
    else if a.Reader? { ReaderFragment(s, war); }
    else if a.JoinPush? { JoinFragment(s, war); }
    else { QuietFragment(s, a); }
  }

  /** Steps that replace a list of readers drop those only that are released, or that
      the newest task waits for anyway. */
  ghost predicate DropsOnlyAwaited(tr: seq<State>, steps: seq<Step>) {
    forall i :: 0 <= i < |steps| && i < |tr| && steps[i] == Analyse ==> ReadersKept(tr[i])
  }

  /** In the fragment a step is good as soon as it drops no reader to be waited for. */
  lemma FragmentGood(s: State, a: Step, war: bool)
    requires WF(s) && CountInv(s) && Enabled(s, a) && OrderInv(s, war) && FragmentInv(s)
    requires war && a == Analyse ==> ReadersKept(s)
    ensures GoodStep(s, a, war)
  {
    hide *;
    StepFacts(s);
    if a == Analyse {
      ScanFacts(s);
      GoodAnalysis(s, war);
    } else if a == JoinPush {
      JoinsHere(s);
      JoinIsSafe(s, war);
      GoodJoin(s, war);
    } else {
      GoodOther(s, a, war);
    }
  }

  lemma GoodAnalysis(s: State, war: bool)
    requires WF(s) && Enabled(s, Analyse) && (war ==> ReadersKept(s))
    requires CanAnalyse(s, s.tasks[|s.tasks| - 1].acc[s.pc.p])
    ensures GoodStep(s, Analyse, war)
  {
    hide WF, CanAnalyse, DropKeeps;
  }

  lemma JoinsHere(s: State)
    requires Enabled(s, JoinPush)
    ensures s.pc.Join?
  {
  }

  lemma GoodJoin(s: State, war: bool)
    requires WF(s) && Enabled(s, JoinPush) && s.pc.Join? && JoinSafe(s)
    ensures GoodStep(s, JoinPush, war)
  {
    hide WF, JoinSafe;
  }

  lemma GoodOther(s: State, a: Step, war: bool)
    requires WF(s) && Enabled(s, a) && a != Analyse && a != JoinPush
    ensures GoodStep(s, a, war)
  {
    hide WF;
  }

  lemma FragmentAt(threads: nat, tr: seq<State>, steps: seq<Step>, war: bool, i: nat)
    requires FragmentRun(threads, tr, steps) && i < |steps| && i < |tr| && (war ==> DropsOnlyAwaited(tr, steps))
    ensures war && steps[i] == Analyse ==> ReadersKept(tr[i])
    ensures steps[i].Spawn? ==> RawSafeArgs(steps[i].args)
  {
    hide IsRun, ReadersKept, RawSafeArgs;
  }

  lemma IsRunOf(threads: nat, tr: seq<State>, steps: seq<Step>)
    requires FragmentRun(threads, tr, steps)
    ensures IsRun(threads, tr, steps) && |tr| == |steps| + 1 && tr[0] == Init(threads)
  {
  }

  lemma InitFragment(threads: nat)
    ensures FragmentInv(Init(threads))
  {
  }

  lemma {:induction false} FragmentOrder(threads: nat, tr: seq<State>, steps: seq<Step>, war: bool, i: nat)
    requires FragmentRun(threads, tr, steps) && i < |tr| && (war ==> DropsOnlyAwaited(tr, steps))
    ensures OrderInv(tr[i], war) && FragmentInv(tr[i])
  {
    hide *;
    IsRunOf(threads, tr, steps);
    if i == 0 {
      InitOrder(threads, war);
      InitFragment(threads);
    } else {
      FragmentOrder(threads, tr, steps, war, i - 1);
      RunStep(threads, tr, steps, i - 1);
      FragmentAt(threads, tr, steps, war, i - 1);
      FragmentGood(tr[i - 1], steps[i - 1], war);
      StepOrder(tr[i - 1], steps[i - 1], war);
      StepFragment(tr[i - 1], steps[i - 1], war);
    }
  }

  /** RAW and WAW need nothing but the argument lists: in every state of every run a
      task that has been scheduled finds all earlier writers of its blocks released. */
  lemma WritersFirst(threads: nat, tr: seq<State>, steps: seq<Step>, n: nat, i: nat, j: nat, b: int)
    requires FragmentRun(threads, tr, steps) && n < |tr| && i < j < |tr[n].tasks|
    requires Modifies(tr[n].tasks[i], b) && Uses(tr[n].tasks[j], b) && Started(tr[n].tasks[j])
    ensures Released(tr[n].tasks[i])
  {
    RunKeeps(threads, tr, steps, n);
    FragmentOrder(threads, tr, steps, false, n);
    OrderedMeans(tr[n], false, i, j, b);
  }

  /** Full conflict ordering, when no reader is dropped that is still to be waited for. */
  lemma ConflictsInOrder(threads: nat, tr: seq<State>, steps: seq<Step>, n: nat, i: nat, j: nat, b: int)
    requires FragmentRun(threads, tr, steps) && DropsOnlyAwaited(tr, steps) && n < |tr| && i < j < |tr[n].tasks|
    requires Conflict(tr[n].tasks, true, i, j, b) && Started(tr[n].tasks[j])
    ensures Released(tr[n].tasks[i])
  {
    RunKeeps(threads, tr, steps, n);
    FragmentOrder(threads, tr, steps, true, n);
    OrderedMeans(tr[n], true, i, j, b);
  }

  /** Exactly when the ordering invariant survives the replacement of a list of readers:
      when each of them is the newest task itself, is released, or is waited for by the
      newest task already. */
  lemma DropIsExact(s: State, c: Access)
    requires WF(s) && CountInv(s) && OrderInv(s, true) && FragmentInv(s) && AtAccess(s, c) && Replaces(s, c)
    ensures OrderInv(AnalyseIn(s, c), true) <==> DropKeeps(s, c)
  {
    assert AnalyseIn(s, c).pc.Scan?;
    StepFacts(s);
    hide OrderInv, HeldBack, CountInv, AnalyseIn, DropKeeps;
    if DropKeeps(s, c) { ReplaceOrder(s, c, true); }
    if OrderInv(AnalyseIn(s, c), true) { DroppedKept(s, c); }
  }

  lemma DroppedKept(s: State, c: Access)
    requires WF(s) && OrderInv(s, true) && FragmentInv(s) && AtAccess(s, c) && Replaces(s, c)
    requires AnalyseIn(s, c).pc.Scan? && OrderInv(AnalyseIn(s, c), true)
    ensures DropKeeps(s, c)
  {
    hide *;
    ReplacesIs(s, c);
    InShape(s, c);
    DroppedFacts(s, c);
    var s', e, t := AnalyseIn(s, c), s.elems[s.table[c.block]], |s.tasks| - 1;
    AdvancedTouched(s, s', c.block, false);
    OwnIs(s', s.base + c.arg);
    TabAt(s', c.block);
    forall r | r in e.readers ensures r < |s.tasks| && (r == t || Safe(s.tasks, r, t)) {
      RelevantAt(s', c.block, r);
      if InForce(s'.elems[s.base + c.arg], r) { NotAmong(s'.elems[s.base + c.arg], r, t); }
    }
    DropKept(s, c);
  }

  lemma ReplacesIs(s: State, c: Access)
    requires AtAccess(s, c) && Replaces(s, c)
    ensures CanAnalyse(s, c) && !c.out && c.block in s.table && s.table[c.block] < |s.elems|
    ensures s.tasks != [] && !s.elems[s.table[c.block]].out && Analysing(s.pc) && s.base + c.arg < |s.elems|
  {
  }

  lemma OwnIs(s: State, m: nat)
    requires Own(s, m)
    ensures s.tasks != [] && Analysing(s.pc) && m < |s.elems| && s.elems[m].owner == |s.tasks| - 1
  {
  }

  lemma NotAmong(e: Elem, r: nat, t: nat)
    requires InForce(e, r) && !e.out && Within(e.readers, t, t + 1)
    ensures r == t
  {
  }

  lemma DropKept(s: State, c: Access)
    requires CanAnalyse(s, c)
    requires c.block in s.table && forall r <- s.elems[s.table[c.block]].readers ::
               r < |s.tasks| && (r == |s.tasks| - 1 || Safe(s.tasks, r, |s.tasks| - 1))
    ensures DropKeeps(s, c)
  {
    hide Safe;
  }

  lemma {:induction false} RelevantAt(s: State, b: int, r: nat)
    requires b in s.table && s.table[b] < |s.elems| && s.elems[s.table[b]].owner < |s.tasks| && TabOk(s, true, b)
    requires Touched(s, r, b)
    ensures InForce(s.elems[s.table[b]], r) || (r < |s.tasks| && Safe(s.tasks, r, s.elems[s.table[b]].owner))
  {
    hide Safe, Touched, InForce;
    assert Relevant(s, true, r, b);
    assert r < |s.tasks| by { TouchedThere(s, r, b); }
  }

  lemma TouchedThere(s: State, i: nat, b: int)
    requires Touched(s, i, b)
    ensures i < |s.tasks|
  {
  }

  lemma DroppedFacts(s: State, c: Access)
    requires WF(s) && FragmentInv(s) && AtAccess(s, c) && Replaces(s, c)
    ensures forall r <- s.elems[s.table[c.block]].readers :: Touched(s, r, c.block) && r < |s.tasks|
    ensures Within(s.elems[s.base + c.arg].readers, |s.tasks| - 1, |s.tasks|)
  {
    assert ElemOk(s.elems[s.table[c.block]], s.elems, |s.tasks|);
    assert ElemOk(s.elems[s.base + c.arg], s.elems, |s.tasks|);
    hide Touched, WritersKnown, InForceOnce;
  }

  lemma TabAt(s: State, b: int)
    requires OrderInv(s, true) && s.pc.Scan? && b in s.table
    ensures s.table[b] < |s.elems| && s.elems[s.table[b]].owner < |s.tasks| && TabOk(s, true, b)
  {
  }
}
