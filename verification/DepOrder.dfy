/** Conflict ordering: two siblings that share a block, one of them writing it, run
    in spawn order (src/deps.c:176-507).

    The invariant is carried by Safe(i, j): task i is already released, or j sits in
    a chain of `to_notify` stacks that leads back to i.  RAW and WAW need one
    hypothesis on the RAR branch (JoinSafe), which DepFragment discharges for the
    argument lists it describes; WAR needs DropKeeps as well. */
module DepOrder {
  import opened DepMachine
  import opened DepCount

  predicate Started(t: Task) { Rank(t.status) >= Rank(Scheduled) }

  predicate Released(t: Task) { Rank(t.status) >= Rank(Releasing) }

  // ---- which accesses have been analysed ------------------------------------

  function Analysed(s: State, i: nat): (n: nat)
    requires i < |s.tasks|
  {
    if i == |s.tasks| - 1 && Analysing(s.pc) && s.pc.p <= |s.tasks[i].acc| then s.pc.p
    else |s.tasks[i].acc|
  }

  predicate Hits(acc: seq<Access>, n: nat, b: int)
    requires n <= |acc|
  {
    exists q :: 0 <= q < n && acc[q].block == b
  }

  predicate Stores(acc: seq<Access>, n: nat, b: int)
    requires n <= |acc|
  {
    exists q :: 0 <= q < n && acc[q].block == b && acc[q].out
  }

  predicate Touched(s: State, i: nat, b: int) {
    i < |s.tasks| && Hits(s.tasks[i].acc, Analysed(s, i), b)
  }

  predicate Wrote(s: State, i: nat, b: int) {
    i < |s.tasks| && Stores(s.tasks[i].acc, Analysed(s, i), b)
  }

  /** Must a later access to b be ordered after task i?  With `war` every earlier
      access counts, without it only the writes do. */
  predicate Relevant(s: State, war: bool, i: nat, b: int) {
    if war then Touched(s, i, b) else Wrote(s, i, b)
  }

  // ---- the ordering relation ------------------------------------------------

  ghost predicate Safe(ts: seq<Task>, i: nat, j: nat)
    requires i < |ts| && j < |ts|
    decreases j
  {
    || Released(ts[i])
    || exists k: nat :: k < j && j in ts[k].notify && (k == i || Safe(ts, i, k))
  }

  /** A task that is still on some stack has not been scheduled. */
  ghost predicate HeldBack(ts: seq<Task>) {
    forall k, j: nat :: 0 <= k < |ts| && j in ts[k].notify ==> j < |ts| && !Started(ts[j])
  }

  lemma CountHoldsBack(s: State)
    requires TasksOk(s.tasks) && BalanceOk(s.tasks, s.pc)
    ensures HeldBack(s.tasks)
  {
    forall k, j: nat | 0 <= k < |s.tasks| && j in s.tasks[k].notify
      ensures j < |s.tasks| && !Started(s.tasks[j])
    {
      assert TaskOk(s.tasks[k], k, |s.tasks|);
      OwedEntry(s.tasks, k, j);
      assert Occurs(s.tasks[k].notify, j) > 0;
    }
  }

  lemma {:induction false} SafeStarted(ts: seq<Task>, i: nat, j: nat)
    requires HeldBack(ts) && i < |ts| && j < |ts| && Safe(ts, i, j) && Started(ts[j])
    ensures Released(ts[i])
  {
  }

  lemma {:induction false} SafeTrans(ts: seq<Task>, i: nat, k: nat, j: nat)
    requires HeldBack(ts) && i < |ts| && k < |ts| && j < |ts| && Safe(ts, i, k) && Safe(ts, k, j)
    ensures Safe(ts, i, j)
    decreases j
  {
    if !Released(ts[k]) {
      var m: nat :| m < j && j in ts[m].notify && (m == k || Safe(ts, k, m));
      if m != k { SafeTrans(ts, i, k, m); }
    }
  }

  /** Steps only release tasks, add stack entries, or close the stack of a task
      that has started. */
  ghost predicate Grows(ts: seq<Task>, ts': seq<Task>) {
    && |ts| <= |ts'|
    && (forall k :: 0 <= k < |ts| && Released(ts[k]) ==> Released(ts'[k]))
    && (forall k :: 0 <= k < |ts| && !Started(ts[k]) ==> forall x <- ts[k].notify :: x in ts'[k].notify)
    && (forall k :: 0 <= k < |ts| && Started(ts[k]) && !Released(ts'[k]) ==> forall x <- ts[k].notify :: x in ts'[k].notify)
    && (forall k :: 0 <= k < |ts| && Released(ts'[k]) ==> Started(ts[k]))
  }

  lemma {:induction false} SafeGrows(ts: seq<Task>, ts': seq<Task>, i: nat, j: nat)
    requires HeldBack(ts) && Grows(ts, ts') && i < |ts| && j < |ts| && Safe(ts, i, j)
    ensures Safe(ts', i, j)
    decreases j
  {
    if !Released(ts[i]) {
      var k: nat :| k < j && j in ts[k].notify && (k == i || Safe(ts, i, k));
      if k != i { SafeGrows(ts, ts', i, k); }
      if Released(ts'[k]) && k != i { SafeStarted(ts, i, k); }
    }
  }

  // ---- the invariant --------------------------------------------------------

  /** Task i will be waited for by the next conflicting access to the element. */
  predicate InForce(e: Elem, i: nat) {
    if e.out then i == e.owner else i in e.readers
  }

  ghost predicate TabOk(s: State, war: bool, b: int)
    requires b in s.table && s.table[b] < |s.elems| && s.elems[s.table[b]].owner < |s.tasks|
  {
    var e := s.elems[s.table[b]];
    forall i: nat :: Relevant(s, war, i, b) ==> InForce(e, i) || Safe(s.tasks, i, e.owner)
  }

  function CurBlock(s: State): int
    requires s.tasks != [] && Analysing(s.pc) && s.pc.p < |s.tasks[|s.tasks| - 1].acc|
  {
    s.tasks[|s.tasks| - 1].acc[s.pc.p].block
  }

  predicate WalkingOn(s: State, b: int) {
    s.pc.Walk? && s.tasks != [] && s.pc.p < |s.tasks[|s.tasks| - 1].acc| && CurBlock(s) == b
  }

  /** Some reader still to be visited stands between i and the newest task. */
  ghost predicate Pending(ts: seq<Task>, rest: seq<nat>, i: nat) {
    exists x :: 0 <= x < |rest| && rest[x] < |ts| && i < |ts| && (rest[x] == i || Safe(ts, i, rest[x]))
  }

  ghost predicate WalkOk(s: State, war: bool)
    requires s.tasks != []
  {
    var t := |s.tasks| - 1;
    s.pc.Walk? && s.pc.p < |s.tasks[t].acc| ==>
      forall i: nat :: Relevant(s, war, i, CurBlock(s)) ==>
        i == t || Safe(s.tasks, i, t) || Pending(s.tasks, s.pc.rest, i)
  }

  ghost predicate TablesOk(s: State, war: bool) {
    forall b :: b in s.table && !WalkingOn(s, b) ==>
      s.table[b] < |s.elems| && s.elems[s.table[b]].owner < |s.tasks| && TabOk(s, war, b)
  }

  /** The element in force belongs to the last writer, or to a later task. */
  ghost predicate OwnersOk(s: State) {
    && (forall b, i: nat :: Touched(s, i, b) ==> b in s.table)
    && (forall b, i: nat :: b in s.table && Wrote(s, i, b) && s.table[b] < |s.elems| ==> i <= s.elems[s.table[b]].owner)
    && (forall b :: b in s.table && s.table[b] < |s.elems| && !WalkingOn(s, b) ==> Touched(s, s.elems[s.table[b]].owner, b))
  }

  ghost predicate Ordered(s: State, war: bool, i: nat, j: nat, b: int) {
    (i < j < |s.tasks| && ((Wrote(s, i, b) && Touched(s, j, b)) || (war && Touched(s, i, b) && Wrote(s, j, b)))) ==>
      Safe(s.tasks, i, j)
  }

  ghost predicate ConflictsOk(s: State, war: bool) {
    forall i: nat, j: nat, b: int :: Ordered(s, war, i, j, b)
  }

  ghost predicate LastsOk(ts: seq<Task>) {
    forall j :: 0 <= j < |ts| && ts[j].last.Some? ==> ts[j].last.value < |ts| && Safe(ts, ts[j].last.value, j)
  }

  /** What the two unfinished branches remember. */
  ghost predicate BranchOk(s: State) {
    s.tasks != [] && Analysing(s.pc) && s.pc.p < |s.tasks[|s.tasks| - 1].acc| ==>
      var c := s.tasks[|s.tasks| - 1].acc[s.pc.p];
      && (s.pc.Walk? ==> c.out && c.block in s.table && s.table[c.block] == s.base + c.arg)
      && (s.pc.Join? ==> !c.out && c.block in s.table && s.table[c.block] < |s.elems|
                         && |s.tasks| - 1 in s.elems[s.table[c.block]].readers)
  }

  ghost predicate OrderInv(s: State, war: bool) {
    && BranchOk(s)
    && TablesOk(s, war)
    && OwnersOk(s)
    && ConflictsOk(s, war)
    && LastsOk(s.tasks)
    && (s.tasks != [] ==> WalkOk(s, war))
  }

  // ---- hypotheses on two branches -------------------------------------------

  /** The push after the join orders the earlier task i before the newest task. */
  ghost predicate Covers(s: State, e: Elem, i: nat)
    requires s.tasks != []
  {
    var t := |s.tasks| - 1;
    && e.dep.Some? && e.dep.value < |s.elems| && s.elems[e.dep.value].owner < |s.tasks|
    && t != e.owner && s.tasks[t].last != Some(e.owner) && i < |s.tasks|
    && (i == s.elems[e.dep.value].owner || Safe(s.tasks, i, s.elems[e.dep.value].owner))
  }

  /** The RAR join is sound: every earlier writer of the block is ordered before the
      newest task already, or by the push to the writer that the element remembers. */
  ghost predicate JoinSafe(s: State)
    requires WF(s) && s.pc.Join?
  {
    var t := |s.tasks| - 1;
    forall i: nat :: i < t && Wrote(s, i, CurBlock(s)) ==> Safe(s.tasks, i, t) || Covers(s, Joined(s), i)
  }

  /** The step replaces a list of readers. */
  ghost predicate Replaces(s: State, c: Access)
    requires CanAnalyse(s, c)
  {
    !c.out && c.block in s.table && !s.elems[s.table[c.block]].out && !OwnerAlive(s, s.table[c.block])
  }

  /** It drops readers only that the newest task waits for anyway, or that are released. */
  ghost predicate DropKeeps(s: State, c: Access)
    requires CanAnalyse(s, c)
  {
    Replaces(s, c) ==> forall r <- s.elems[s.table[c.block]].readers ::
      r < |s.tasks| && (r == |s.tasks| - 1 || Safe(s.tasks, r, |s.tasks| - 1))
  }

  ghost predicate GoodStep(s: State, a: Step, war: bool)
    requires WF(s) && Enabled(s, a)
  {
    && (a.JoinPush? ==> JoinSafe(s))
    && (war && a.Analyse? ==>
          var c := s.tasks[|s.tasks| - 1].acc[s.pc.p];
          CanAnalyse(s, c) && DropKeeps(s, c))
  }

  // ---- steps that analyse nothing -------------------------------------------

  /** Same accesses analysed, same table and elements; the stacks may have grown. */
  ghost predicate SameAnalysis(s: State, s': State) {
    && |s'.tasks| == |s.tasks| && s'.elems == s.elems && s'.table == s.table && s'.base == s.base
    && (forall k :: 0 <= k < |s.tasks| ==>
          s'.tasks[k].acc == s.tasks[k].acc && Analysed(s', k) == Analysed(s, k))
    && s'.pc.Walk? == s.pc.Walk? && (s.pc.Walk? ==> s'.pc.p == s.pc.p) && (s'.pc.Join? ==> s'.pc == s.pc)
  }

  lemma SameGrows(ts: seq<Task>)
    ensures Grows(ts, ts)
  {
  }

  lemma {:induction false} SafeAllGrow(ts: seq<Task>, ts': seq<Task>)
    requires HeldBack(ts) && Grows(ts, ts')
    ensures forall i: nat, j: nat :: i < |ts| && j < |ts| && Safe(ts, i, j) ==> Safe(ts', i, j)
  {
    forall i: nat, j: nat | i < |ts| && j < |ts| && Safe(ts, i, j) ensures Safe(ts', i, j) {
      SafeGrows(ts, ts', i, j);
    }
  }

  lemma SameTouched(s: State, s': State)
    requires SameAnalysis(s, s')
    ensures forall i: nat, b :: Touched(s', i, b) == Touched(s, i, b) && Wrote(s', i, b) == Wrote(s, i, b)
    ensures forall b :: WalkingOn(s', b) == WalkingOn(s, b)
  {
  }

  lemma SteadyOrder(s: State, s': State, war: bool)
    requires SameAnalysis(s, s') && HeldBack(s.tasks) && Grows(s.tasks, s'.tasks) && OrderInv(s, war)
    requires LastsOk(s'.tasks) && (s'.tasks != [] ==> WalkOk(s', war))
    ensures OrderInv(s', war)
  {
    SafeAllGrow(s.tasks, s'.tasks);
    SameTouched(s, s');
    hide Touched, Wrote, Safe, WalkingOn;
    assert forall i: nat, b :: Relevant(s', war, i, b) == Relevant(s, war, i, b);
    forall b | b in s'.table && !WalkingOn(s', b)
      ensures s'.table[b] < |s'.elems| && s'.elems[s'.table[b]].owner < |s'.tasks| && TabOk(s', war, b)
    {
      assert TabOk(s, war, b);
    }
    forall i: nat, j: nat, b: int ensures Ordered(s', war, i, j, b) {
      assert Ordered(s, war, i, j, b);
    }
  }

  /** Steps that leave deps_last and the reader walk alone. */
  lemma QuietOrder(s: State, s': State, war: bool)
    requires SameAnalysis(s, s') && HeldBack(s.tasks) && Grows(s.tasks, s'.tasks) && OrderInv(s, war)
    requires forall k :: 0 <= k < |s.tasks| ==> s'.tasks[k].last == s.tasks[k].last
    requires s.pc.Walk? ==> s'.pc == s.pc
    ensures OrderInv(s', war)
  {
    SafeAllGrow(s.tasks, s'.tasks);
    SameTouched(s, s');
    assert LastsOk(s'.tasks) by { hide Safe; }
    if s'.tasks != [] { QuietWalk(s, s', war); }
    SteadyOrder(s, s', war);
  }

  lemma QuietWalk(s: State, s': State, war: bool)
    requires SameAnalysis(s, s') && s.tasks != [] && WalkOk(s, war) && (s.pc.Walk? ==> s'.pc == s.pc)
    requires forall i: nat, b :: Touched(s', i, b) == Touched(s, i, b) && Wrote(s', i, b) == Wrote(s, i, b)
    requires forall i: nat, j: nat :: i < |s.tasks| && j < |s.tasks| && Safe(s.tasks, i, j) ==> Safe(s'.tasks, i, j)
    ensures WalkOk(s', war)
  {
    hide Safe, Hits, Stores;
    var t := |s.tasks| - 1;
    if s'.pc.Walk? && s'.pc.p < |s'.tasks[t].acc| {
      forall i: nat | Relevant(s', war, i, CurBlock(s'))
        ensures i == t || Safe(s'.tasks, i, t) || Pending(s'.tasks, s'.pc.rest, i)
      {
        assert Relevant(s, war, i, CurBlock(s));
        if Pending(s.tasks, s.pc.rest, i) { PendingGrows(s.tasks, s'.tasks, s.pc.rest, i); }
      }
    }
  }

  lemma {:induction false} PendingGrows(ts: seq<Task>, ts': seq<Task>, rest: seq<nat>, i: nat)
    requires |ts| <= |ts'| && Pending(ts, rest, i)
    requires forall i: nat, j: nat :: i < |ts| && j < |ts| && Safe(ts, i, j) ==> Safe(ts', i, j)
    ensures Pending(ts', rest, i)
  {
    hide Safe;
    var x :| 0 <= x < |rest| && rest[x] < |ts| && i < |ts| && (rest[x] == i || Safe(ts, i, rest[x]));
    assert rest[x] == i || Safe(ts', i, rest[x]);
  }

  lemma SpawnTables(s: State, args: seq<Arg>, war: bool)
    requires WF(s) && s.pc.Idle? && HeldBack(s.tasks) && TablesOk(s, war)
    ensures TablesOk(Do(s, Spawn(args)), war)
  {
    var s' := Do(s, Spawn(args));
    SafeAllGrow(s.tasks, s'.tasks);
    SpawnTouched(s, args);
    hide Touched, Wrote, Safe, HeldBack, Grows;
    forall b | b in s'.table && !WalkingOn(s', b)
      ensures s'.table[b] < |s'.elems| && s'.elems[s'.table[b]].owner < |s'.tasks| && TabOk(s', war, b)
    {
      assert TabOk(s, war, b);
    }
  }

  lemma SpawnConflicts(s: State, args: seq<Arg>, war: bool)
    requires WF(s) && s.pc.Idle? && HeldBack(s.tasks) && ConflictsOk(s, war) && OwnersOk(s)
    ensures ConflictsOk(Do(s, Spawn(args)), war) && OwnersOk(Do(s, Spawn(args)))
  {
    var s' := Do(s, Spawn(args));
    SafeAllGrow(s.tasks, s'.tasks);
    SpawnTouched(s, args);
    hide Touched, Wrote, Safe, HeldBack, Grows, WF, Accesses, NewElems;
    forall i: nat, j: nat, b: int ensures Ordered(s', war, i, j, b) {
      assert Ordered(s, war, i, j, b);
    }
  }

  lemma SpawnOrder(s: State, args: seq<Arg>, war: bool)
    requires WF(s) && s.pc.Idle? && HeldBack(s.tasks) && OrderInv(s, war)
    ensures OrderInv(Do(s, Spawn(args)), war)
  {
    SpawnTables(s, args, war);
    SpawnConflicts(s, args, war);
    SafeAllGrow(s.tasks, Do(s, Spawn(args)).tasks);
    hide Touched, Wrote, Safe, HeldBack, Grows, TablesOk, OwnersOk, ConflictsOk, WF, Accesses, NewElems;
  }

  lemma SpawnTouched(s: State, args: seq<Arg>)
    requires WF(s) && s.pc.Idle?
    ensures var s' := Do(s, Spawn(args));
      forall i: nat, b :: Touched(s', i, b) == Touched(s, i, b) && Wrote(s', i, b) == Wrote(s, i, b)
  {
  }

  // ---- one analysed access --------------------------------------------------

  /** s' is s after the newest task's access p, to block b, has been dealt with. */
  ghost predicate Advanced(s: State, s': State, b: int, out: bool) {
    && s.tasks != [] && |s'.tasks| == |s.tasks| && Analysing(s.pc) && Analysing(s'.pc)
    && (forall k :: 0 <= k < |s.tasks| ==> s'.tasks[k].acc == s.tasks[k].acc)
    && s.pc.p < |s.tasks[|s.tasks| - 1].acc|
    && s.tasks[|s.tasks| - 1].acc[s.pc.p].block == b && s.tasks[|s.tasks| - 1].acc[s.pc.p].out == out
    && s'.pc.Scan? && s'.pc.p == s.pc.p + 1
    && |s'.elems| == |s.elems|
    && (forall m :: 0 <= m < |s.elems| ==>
          s'.elems[m].owner == s.elems[m].owner && s'.elems[m].out == s.elems[m].out
          && forall r <- s.elems[m].readers :: r in s'.elems[m].readers)
    && b in s'.table && s'.table[b] < |s.elems|
    && s'.table == s.table[b := s'.table[b]]
  }

  lemma AdvancedTouched(s: State, s': State, b: int, out: bool)
    requires Advanced(s, s', b, out)
    ensures forall i: nat, c ::
              Touched(s', i, c) == (Touched(s, i, c) || (i == |s.tasks| - 1 && c == b))
              && Wrote(s', i, c) == (Wrote(s, i, c) || (i == |s.tasks| - 1 && c == b && out))
  {
    var t := |s.tasks| - 1;
    var acc := s.tasks[t].acc;
    var p := s.pc.p;
    forall i: nat, c
      ensures Touched(s', i, c) == (Touched(s, i, c) || (i == t && c == b))
      ensures Wrote(s', i, c) == (Wrote(s, i, c) || (i == t && c == b && out))
    {
      if i == t {
        assert Hits(acc, p + 1, c) == (Hits(acc, p, c) || c == b);
        assert Stores(acc, p + 1, c) == (Stores(acc, p, c) || (c == b && out));
      }
    }
  }

  /** What has to be shown about an access to re-establish the invariant. */
  ghost predicate Settled(s: State, s': State, war: bool, b: int, out: bool)
    requires Advanced(s, s', b, out)
  {
    var t := |s.tasks| - 1;
    var e := s'.elems[s'.table[b]];
    && e.owner < |s.tasks| && InForce(e, t)
    && (forall i: nat :: Relevant(s, war, i, b) && i != t ==> InForce(e, i) || Safe(s'.tasks, i, e.owner))
    && (forall i: nat :: i < t && (Wrote(s, i, b) || (war && out && Touched(s, i, b))) ==> Safe(s'.tasks, i, t))
    && (e.owner == t || (!out && b in s.table && s.table[b] < |s.elems| && s.elems[s.table[b]].owner == e.owner
                         && !WalkingOn(s, b)))
  }

  lemma WroteTouched(s: State)
    ensures forall i: nat, b :: Wrote(s, i, b) ==> Touched(s, i, b)
  {
  }

  lemma AccessTables(s: State, s': State, war: bool, b: int, out: bool)
    requires TablesOk(s, war) && Advanced(s, s', b, out) && Settled(s, s', war, b, out)
    requires forall i: nat, j: nat :: i < |s.tasks| && j < |s.tasks| && Safe(s.tasks, i, j) ==> Safe(s'.tasks, i, j)
    requires forall c :: WalkingOn(s, c) ==> c == b
    ensures TablesOk(s', war)
  {
    AdvancedTouched(s, s', b, out);
    hide Touched, Wrote, Safe, WalkingOn;
    forall c | c in s'.table
      ensures s'.table[c] < |s'.elems| && s'.elems[s'.table[c]].owner < |s'.tasks| && TabOk(s', war, c)
    {
      if c != b {
        assert TabOk(s, war, c);
        TabGrows(s, s', war, c);
      }
    }
  }

  lemma AccessOwners(s: State, s': State, war: bool, b: int, out: bool)
    requires OwnersOk(s) && Advanced(s, s', b, out) && Settled(s, s', war, b, out)
    requires forall c :: WalkingOn(s, c) ==> c == b
    ensures OwnersOk(s')
  {
    AdvancedTouched(s, s', b, out);
    hide Touched, Wrote, Safe;
  }

  lemma AccessConflicts(s: State, s': State, war: bool, b: int, out: bool)
    requires ConflictsOk(s, war) && Advanced(s, s', b, out) && Settled(s, s', war, b, out)
    requires forall i: nat, j: nat :: i < |s.tasks| && j < |s.tasks| && Safe(s.tasks, i, j) ==> Safe(s'.tasks, i, j)
    ensures ConflictsOk(s', war)
  {
    AdvancedTouched(s, s', b, out);
    hide Touched, Wrote, Safe;
    forall i: nat, j: nat, c: int ensures Ordered(s', war, i, j, c) {
      assert Ordered(s, war, i, j, c);
    }
  }

  lemma AccessOrder(s: State, s': State, war: bool, b: int, out: bool)
    requires OrderInv(s, war) && HeldBack(s.tasks) && Grows(s.tasks, s'.tasks)
    requires Advanced(s, s', b, out) && Settled(s, s', war, b, out) && LastsOk(s'.tasks) && s'.base == s.base
    requires forall c :: WalkingOn(s, c) ==> c == b
    ensures OrderInv(s', war)
  {
    SafeAllGrow(s.tasks, s'.tasks);
    hide Touched, Wrote, Safe, Grows, Settled, TablesOk, OwnersOk, ConflictsOk, LastsOk;
    AccessTables(s, s', war, b, out);
    AccessOwners(s, s', war, b, out);
    AccessConflicts(s, s', war, b, out);
  }

  lemma TabGrows(s: State, s': State, war: bool, c: int)
    requires c in s.table && c in s'.table && s'.table[c] == s.table[c] < |s.elems| == |s'.elems|
    requires |s'.tasks| == |s.tasks| && s.elems[s.table[c]].owner < |s.tasks| && TabOk(s, war, c)
    requires s'.elems[s.table[c]].owner == s.elems[s.table[c]].owner && s'.elems[s.table[c]].out == s.elems[s.table[c]].out
    requires forall r <- s.elems[s.table[c]].readers :: r in s'.elems[s.table[c]].readers
    requires forall i: nat :: Relevant(s', war, i, c) ==> Relevant(s, war, i, c)
    requires forall i: nat, j: nat :: i < |s.tasks| && j < |s.tasks| && Safe(s.tasks, i, j) ==> Safe(s'.tasks, i, j)
    ensures TabOk(s', war, c)
  {
    hide Safe, Hits, Stores;
  }
  // ---- pushes ---------------------------------------------------------------

  lemma PushGrows(s: State, w: nat)
    requires s.tasks != [] && w < |s.tasks| - 1
    ensures Grows(s.tasks, PushOn(s, w).tasks) && |s.tasks| - 1 in PushOn(s, w).tasks[w].notify
  {
  }

  /** After the guarded push, w is ordered before the newest task. */
  lemma {:induction false} AttemptOrders(s: State, w: nat)
    requires s.tasks != [] && w < |s.tasks| && PhasesOk(s.tasks) && LastsOk(s.tasks) && HeldBack(s.tasks)
    ensures var ts' := Attempt(s, w, w).tasks;
      && Grows(s.tasks, ts') && |ts'| == |s.tasks| && LastsOk(ts')
      && (w == |s.tasks| - 1 || Safe(ts', w, |s.tasks| - 1))
  {
    var t := |s.tasks| - 1;
    if Skips(s, w, w) {
      assert PhaseOk(s.tasks[w]);
    } else {
      PushOrders(s, w);
    }
  }

  lemma {:induction false} PushOrders(s: State, w: nat)
    requires s.tasks != [] && w < |s.tasks| - 1 && LastsOk(s.tasks) && HeldBack(s.tasks)
    ensures var ts' := PushOn(s, w).tasks;
      && Grows(s.tasks, ts') && |ts'| == |s.tasks| && LastsOk(ts') && Safe(ts', w, |s.tasks| - 1)
  {
    var ts' := PushOn(s, w).tasks;
    PushGrows(s, w);
    SafeAllGrow(s.tasks, ts');
    assert Safe(ts', w, |s.tasks| - 1);
    assert forall j :: 0 <= j < |s.tasks| - 1 ==> ts'[j].last == s.tasks[j].last;
    hide Safe;
  }

  // ---- the branches of create_dependency ------------------------------------

  /** The facts about the counters that the ordering argument uses. */
  ghost predicate Ready(s: State) {
    HeldBack(s.tasks) && PhasesOk(s.tasks)
  }

  /** Everything relevant at b is ordered before w, and w before the newest task. */
  lemma {:induction false} ThroughOwner(s: State, ts': seq<Task>, w: nat)
    requires s.tasks != [] && |ts'| == |s.tasks| && w < |s.tasks| && HeldBack(s.tasks) && HeldBack(ts') && Grows(s.tasks, ts')
    requires w == |s.tasks| - 1 || Safe(ts', w, |s.tasks| - 1)
    ensures forall i: nat :: i < |s.tasks| && Safe(s.tasks, i, w) ==>
              i == |s.tasks| - 1 || Safe(ts', i, |s.tasks| - 1)
  {
    hide *;
    var t := |s.tasks| - 1;
    SafeAllGrow(s.tasks, ts');
    forall i: nat | i < |s.tasks| && Safe(s.tasks, i, w) ensures i == t || Safe(ts', i, t) {
      if w != t { SafeTrans(ts', i, w, t); }
    }
  }

  function Analysis(s: State, c: Access): State
    requires CanAnalyse(s, c)
  {
    if c.out then AnalyseOut(s, c) else AnalyseIn(s, c)
  }

  ghost predicate AtAccess(s: State, c: Access) {
    && CanAnalyse(s, c) && s.pc.p < |s.tasks[|s.tasks| - 1].acc|
    && c == s.tasks[|s.tasks| - 1].acc[s.pc.p]
    && s.elems[s.base + c.arg].owner == |s.tasks| - 1 && s.elems[s.base + c.arg].out == c.out
    && (!c.out ==> |s.tasks| - 1 in s.elems[s.base + c.arg].readers)
  }

  /** If the owner of the writer element in force comes before the newest task, so
      does everything relevant at the block. */
  lemma {:induction false} BehindWriter(s: State, ts': seq<Task>, b: int, war: bool)
    requires s.tasks != [] && |ts'| == |s.tasks| && OrderInv(s, war) && !WalkingOn(s, b)
    requires b in s.table ==> s.table[b] < |s.elems| && s.elems[s.table[b]].out
    requires b in s.table ==>
               var w := s.elems[s.table[b]].owner;
               && w < |s.tasks| && (w == |s.tasks| - 1 || Safe(ts', w, |s.tasks| - 1))
               && forall i: nat :: i < |s.tasks| && Safe(s.tasks, i, w) ==>
                    i == |s.tasks| - 1 || Safe(ts', i, |s.tasks| - 1)
    ensures forall i: nat :: Relevant(s, war, i, b) && i != |s.tasks| - 1 ==> Safe(ts', i, |s.tasks| - 1)
  {
    WroteTouched(s);
    hide Safe, Hits, Stores;
    var t := |s.tasks| - 1;
    forall i: nat | Relevant(s, war, i, b) && i != t ensures Safe(ts', i, t) {
      assert Touched(s, i, b);
      assert TabOk(s, war, b);
      var e := s.elems[s.table[b]];
      if !InForce(e, i) { assert Safe(s.tasks, i, e.owner); }
    }
  }

  lemma WriterShape(s: State, c: Access)
    requires AtAccess(s, c) && (c.block in s.table ==> s.elems[s.table[c.block]].out)
    ensures CanAnalyse(s, c)
    ensures var s' := Analysis(s, c);
      && s.tasks != [] && |s'.tasks| == |s.tasks| && s'.pc.Scan? && s'.base == s.base && (forall b :: !WalkingOn(s, b))
      && if c.block in s.table then
           && s.table[c.block] < |s.elems| && s.elems[s.table[c.block]].owner < |s.tasks|
           && s'.tasks == Attempt(s, s.elems[s.table[c.block]].owner, s.elems[s.table[c.block]].owner).tasks
         else s'.tasks == s.tasks
  {
  }

  lemma OrderParts(s: State, war: bool)
    requires Ready(s) && OrderInv(s, war)
    ensures LastsOk(s.tasks) && HeldBack(s.tasks) && PhasesOk(s.tasks)
  {
  }

  /** WAW, RAW and a block without history. */
  lemma WriterOrder(s: State, c: Access, war: bool)
    requires AtAccess(s, c) && Ready(s) && OrderInv(s, war)
    requires c.block in s.table ==> s.elems[s.table[c.block]].out
    requires HeldBack(Analysis(s, c).tasks)
    ensures OrderInv(Analysis(s, c), war)
  {
    hide *;
    WriterShape(s, c);
    OrderParts(s, war);
    var s' := Analysis(s, c);
    SameGrows(s.tasks);
    if c.block in s.table {
      var w := s.elems[s.table[c.block]].owner;
      AttemptOrders(s, w);
      ThroughOwner(s, s'.tasks, w);
    }
    BehindWriter(s, s'.tasks, c.block, war);
    TakesBlock(s, s', c, war);
    AccessOrder(s, s', war, c.block, c.out);
  }

  /** The newest task's own element takes the block over. */
  lemma TakesBlock(s: State, s': State, c: Access, war: bool)
    requires AtAccess(s, c) && s' == Analysis(s, c) && s'.pc.Scan?
    requires forall i: nat :: Relevant(s, war, i, c.block) && i != |s.tasks| - 1 ==> Safe(s'.tasks, i, |s.tasks| - 1)
    ensures Advanced(s, s', c.block, c.out) && Settled(s, s', war, c.block, c.out)
  {
    WroteTouched(s);
    assert Advanced(s, s', c.block, c.out);
    hide Safe, Hits, Stores, Touched, Wrote;
    forall i: nat | i < |s.tasks| - 1 && (Wrote(s, i, c.block) || (war && c.out && Touched(s, i, c.block)))
      ensures Safe(s'.tasks, i, |s.tasks| - 1)
    {
      assert Relevant(s, war, i, c.block);
    }
  }
  // ---- RAR ------------------------------------------------------------------

  /** The first reader is being released: the new reader starts a list of its own. */
  lemma ReplaceOrder(s: State, c: Access, war: bool)
    requires AtAccess(s, c) && Ready(s) && OrderInv(s, war) && Replaces(s, c) && ElemsOk(s.elems, |s.tasks|)
    requires war ==> DropKeeps(s, c)
    ensures OrderInv(Analysis(s, c), war)
  {
    var t := |s.tasks| - 1;
    var s' := Analysis(s, c);
    var e := s.elems[s.table[c.block]];
    assert ElemOk(e, s.elems, |s.tasks|);
    assert TabOk(s, war, c.block);
    assert Released(s.tasks[e.owner]);
    forall i: nat | Relevant(s, war, i, c.block) && i != t ensures Safe(s'.tasks, i, t) {
      if InForce(e, i) {
        if !war { OwnerIsLast(s, c.block, i); }
        assert Released(s.tasks[i]) || Safe(s.tasks, i, t);
      } else {
        SafeStarted(s.tasks, i, e.owner);
      }
    }
    assert s'.tasks == s.tasks;
    assert Grows(s.tasks, s'.tasks);
    hide Safe, Touched, Wrote, OrderInv;
    TakesBlock(s, s', c, war);
    AccessOrder(s, s', war, c.block, c.out);
  }

  /** A reader in a reader element that also wrote the block is its first reader. */
  lemma OwnerIsLast(s: State, b: int, i: nat)
    requires OwnersOk(s) && b in s.table && s.table[b] < |s.elems| && ElemOk(s.elems[s.table[b]], s.elems, |s.tasks|)
    requires Wrote(s, i, b) && i in s.elems[s.table[b]].readers
    ensures i == s.elems[s.table[b]].owner
  {
    var e := s.elems[s.table[b]];
    var x :| 0 <= x < |e.readers| && e.readers[x] == i;
    assert Within(e.readers, e.owner, |s.tasks|);
  }

  /** Joining the readers: the push is still to come. */
  lemma EnterJoinOrder(s: State, c: Access, war: bool)
    requires AtAccess(s, c) && OrderInv(s, war) && Ready(s) && Analysis(s, c).pc.Join?
    ensures OrderInv(Analysis(s, c), war)
  {
    var s' := Analysis(s, c);
    var m := s.table[c.block];
    assert s'.tasks == s.tasks && s'.elems == s.elems[m := s.elems[m].(readers := [|s.tasks| - 1] + s.elems[m].readers)];
    assert forall i: nat :: i < |s.tasks| ==> Analysed(s', i) == Analysed(s, i);
    assert forall i: nat, b :: Touched(s', i, b) == Touched(s, i, b) && Wrote(s', i, b) == Wrote(s, i, b);
    hide Touched, Wrote, Safe;
    forall b | b in s'.table && !WalkingOn(s', b)
      ensures s'.table[b] < |s'.elems| && s'.elems[s'.table[b]].owner < |s'.tasks| && TabOk(s', war, b)
    {
      assert TabOk(s, war, b);
    }
    forall i: nat, j: nat, b: int ensures Ordered(s', war, i, j, b) {
      assert Ordered(s, war, i, j, b);
    }
  }

  lemma JoinShape(s: State)
    requires WF(s) && s.pc.Join? && BranchOk(s)
    ensures var s' := DoJoinPush(s);
      && Advanced(s, s', CurBlock(s), false) && s'.elems == s.elems && s'.table == s.table && s'.base == s.base
      && s'.elems[s'.table[CurBlock(s)]] == Joined(s)
      && CurBlock(s) in s.table && s.table[CurBlock(s)] < |s.elems| && s.elems[s.table[CurBlock(s)]] == Joined(s)
      && |s'.tasks| == |s.tasks| && Joined(s).owner < |s.tasks| && InForce(Joined(s), |s.tasks| - 1)
      && forall b :: !WalkingOn(s, b)
  {
    assert ElemOk(Joined(s), s.elems, |s.tasks|);
    assert s.table == s.table[CurBlock(s) := s.table[CurBlock(s)]];
  }

  lemma {:induction false} JoinTab(s: State, ts': seq<Task>, war: bool)
    requires WF(s) && s.pc.Join? && OrderInv(s, war) && HeldBack(s.tasks) && Grows(s.tasks, ts')
    ensures Joined(s).owner < |ts'|
    ensures forall i: nat :: Relevant(s, war, i, CurBlock(s)) ==>
      i < |ts'| && (InForce(Joined(s), i) || Safe(ts', i, Joined(s).owner))
  {
    assert TabOk(s, war, CurBlock(s));
    SafeAllGrow(s.tasks, ts');
    hide Safe, Grows, HeldBack, Joined, CurBlock;
    var e := Joined(s);
    forall i: nat | Relevant(s, war, i, CurBlock(s))
      ensures i < |ts'| && (InForce(e, i) || Safe(ts', i, e.owner))
    {
      assert InForce(e, i) || Safe(s.tasks, i, e.owner);
    }
  }

  lemma ReaderSettles(s: State, s': State, e: Elem, war: bool, b: int)
    requires Advanced(s, s', b, false) && b in s'.table && s'.table[b] < |s'.elems| && s'.elems[s'.table[b]] == e
    requires s.tasks != [] && |s'.tasks| == |s.tasks| && e.owner < |s.tasks| && InForce(e, |s.tasks| - 1)
    requires forall i: nat :: Relevant(s, war, i, b) ==> i < |s'.tasks| && (InForce(e, i) || Safe(s'.tasks, i, e.owner))
    requires forall i: nat :: i < |s.tasks| - 1 && Wrote(s, i, b) ==> Safe(s'.tasks, i, |s.tasks| - 1)
    requires b in s.table && s.table[b] < |s.elems| && s.elems[s.table[b]].owner == e.owner && !WalkingOn(s, b)
    ensures Settled(s, s', war, b, false)
  {
    hide Safe, Touched, Wrote, Relevant, Advanced, InForce, WalkingOn;
  }

  lemma JoinSettles(s: State, war: bool)
    requires WF(s) && s.pc.Join? && Ready(s) && OrderInv(s, war) && JoinSafe(s) && HeldBack(DoJoinPush(s).tasks)
    ensures Advanced(s, DoJoinPush(s), CurBlock(s), false) && Settled(s, DoJoinPush(s), war, CurBlock(s), false)
  {
    hide *;
    JoinParts(s, war);
    JoinPushSafe(s);
    JoinShape(s);
    JoinTab(s, DoJoinPush(s).tasks, war);
    ReaderSettles(s, DoJoinPush(s), Joined(s), war, CurBlock(s));
  }

  /** The push that follows a join. */
  lemma JoinOrder(s: State, war: bool)
    requires WF(s) && s.pc.Join? && Ready(s) && OrderInv(s, war) && JoinSafe(s) && HeldBack(DoJoinPush(s).tasks)
    ensures OrderInv(DoJoinPush(s), war)
  {
    hide *;
    JoinParts(s, war);
    JoinPushSafe(s);
    JoinShape(s);
    JoinSettles(s, war);
    AccessOrder(s, DoJoinPush(s), war, CurBlock(s), false);
  }

  lemma JoinParts(s: State, war: bool)
    requires WF(s) && s.pc.Join? && Ready(s) && OrderInv(s, war)
    ensures BranchOk(s) && LastsOk(s.tasks) && HeldBack(s.tasks)
    ensures s.tasks != [] && s.pc.p < |s.tasks[|s.tasks| - 1].acc| && Analysing(s.pc)
  {
  }

  lemma JoinAttempts(s: State)
    requires WF(s) && s.pc.Join? && Ready(s) && LastsOk(s.tasks)
    ensures var ts' := DoJoinPush(s).tasks;
      var e := Joined(s);
      && |ts'| == |s.tasks| && Grows(s.tasks, ts') && LastsOk(ts')
      && (e.dep.Some? ==>
            && e.dep.value < |s.elems| && s.elems[e.dep.value].owner < |s.tasks| - 1
            && (s.tasks[s.elems[e.dep.value].owner].closed ==> Released(s.tasks[s.elems[e.dep.value].owner]))
            && (!Skips(s, e.owner, s.elems[e.dep.value].owner) ==> Safe(ts', s.elems[e.dep.value].owner, |s.tasks| - 1)))
  {
    var e := Joined(s);
    assert ElemOk(e, s.elems, |s.tasks|);
    SameGrows(s.tasks);
    if e.dep.Some? {
      var w := s.elems[e.dep.value].owner;
      assert PhaseOk(s.tasks[w]);
      hide WF, PhasesOk, Grows, HeldBack;
      if !Skips(s, e.owner, w) { PushOrders(s, w); }
    }
  }

  lemma JoinPushSafe(s: State)
    requires WF(s) && s.pc.Join? && Ready(s) && LastsOk(s.tasks) && JoinSafe(s) && HeldBack(DoJoinPush(s).tasks)
    ensures var ts' := DoJoinPush(s).tasks;
      && |ts'| == |s.tasks| && Grows(s.tasks, ts') && LastsOk(ts')
      && forall i: nat :: i < |s.tasks| - 1 && Wrote(s, i, CurBlock(s)) ==> Safe(ts', i, |s.tasks| - 1)
  {
    JoinAttempts(s);
    hide WF, Grows, DoJoinPush, LastsOk, Wrote, HeldBack, Safe, Covers, Joined, CurBlock;
    forall i: nat | i < |s.tasks| - 1 && Wrote(s, i, CurBlock(s)) ensures Safe(DoJoinPush(s).tasks, i, |s.tasks| - 1) {
      JoinCovered(s, i);
    }
  }

  lemma {:induction false} JoinCovered(s: State, i: nat)
    requires WF(s) && s.pc.Join? && Ready(s) && LastsOk(s.tasks) && HeldBack(DoJoinPush(s).tasks)
    requires i < |s.tasks| - 1 && (Safe(s.tasks, i, |s.tasks| - 1) || Covers(s, Joined(s), i))
    ensures |DoJoinPush(s).tasks| == |s.tasks| && Safe(DoJoinPush(s).tasks, i, |s.tasks| - 1)
  {
    var t, e, ts' := |s.tasks| - 1, Joined(s), DoJoinPush(s).tasks;
    JoinAttempts(s);
    SafeAllGrow(s.tasks, ts');
    hide WF, Grows, DoJoinPush, LastsOk, Joined;
    if !Safe(s.tasks, i, t) {
      var w := s.elems[e.dep.value].owner;
      if s.tasks[w].closed {
        SafeStarted(s.tasks, i, w);
      } else if i != w {
        SafeTrans(ts', i, w, t);
      }
    }
  }

  // ---- WAR ------------------------------------------------------------------

  lemma EnterWalkOrder(s: State, c: Access, war: bool)
    requires AtAccess(s, c) && OrderInv(s, war) && ElemsOk(s.elems, |s.tasks|) && Analysis(s, c).pc.Walk?
    ensures OrderInv(Analysis(s, c), war)
  {
    var s' := Analysis(s, c);
    var e := s.elems[s.table[c.block]];
    assert ElemOk(e, s.elems, |s.tasks|);
    assert s'.tasks == s.tasks && s'.elems == s.elems;
    assert forall i: nat :: i < |s.tasks| ==> Analysed(s', i) == Analysed(s, i);
    assert forall i: nat, b :: Touched(s', i, b) == Touched(s, i, b) && Wrote(s', i, b) == Wrote(s, i, b);
    EnterWalk(s, c, war);
    hide Touched, Wrote, Safe, WalkOk;
    forall b | b in s'.table && !WalkingOn(s', b)
      ensures s'.table[b] < |s'.elems| && s'.elems[s'.table[b]].owner < |s'.tasks| && TabOk(s', war, b)
    {
      assert TabOk(s, war, b);
    }
    forall i: nat, j: nat, b: int ensures Ordered(s', war, i, j, b) {
      assert Ordered(s, war, i, j, b);
    }
    OwnersBound(s);
  }

  lemma OwnersBound(s: State)
    ensures forall i: nat, b :: Wrote(s, i, b) ==> i < |s.tasks|
  {
  }

  lemma EnterWalk(s: State, c: Access, war: bool)
    requires AtAccess(s, c) && OrderInv(s, war) && ElemsOk(s.elems, |s.tasks|) && Analysis(s, c).pc.Walk?
    ensures WalkOk(Analysis(s, c), war)
  {
    var s' := Analysis(s, c);
    var e := s.elems[s.table[c.block]];
    assert ElemOk(e, s.elems, |s.tasks|);
    assert TabOk(s, war, c.block);
    hide Safe, Hits, Stores;
    forall i: nat | Relevant(s', war, i, c.block) ensures Pending(s.tasks, e.readers, i) {
      assert Relevant(s, war, i, c.block);
      var r := if InForce(e, i) then i else e.owner;
      var x :| 0 <= x < |e.readers| && e.readers[x] == r;
      assert r == i || Safe(s.tasks, i, r);
    }
  }

  lemma ReaderOrder(s: State, war: bool)
    requires s.pc.Walk? && s.tasks != [] && Within(s.pc.rest, 0, |s.tasks|) && s.pc.rest != []
    requires s.pc.p < |s.tasks[|s.tasks| - 1].acc|
    requires Ready(s) && OrderInv(s, war) && HeldBack(DoReader(s).tasks)
    ensures OrderInv(DoReader(s), war)
  {
    var s' := DoReader(s);
    var r := s.pc.rest[0];
    ReaderShape(s);
    hide Safe, Touched, Wrote, DoReader, Attempt;
    AttemptOrders(s, r);
    ThroughOwner(s, s'.tasks, r);
    SafeAllGrow(s.tasks, s'.tasks);
    SameTouched(s, s');
    ReaderWalk(s, s', war, r);
    SteadyOrder(s, s', war);
  }

  lemma ReaderShape(s: State)
    requires s.pc.Walk? && s.tasks != [] && Within(s.pc.rest, 0, |s.tasks|) && s.pc.rest != []
    requires s.pc.p < |s.tasks[|s.tasks| - 1].acc|
    ensures var s' := DoReader(s);
      && SameAnalysis(s, s') && s'.tasks == Attempt(s, s.pc.rest[0], s.pc.rest[0]).tasks
      && s'.pc.Walk? && s'.pc.rest == s.pc.rest[1..]
  {
  }

  lemma {:induction false} ReaderWalk(s: State, s': State, war: bool, r: nat)
    requires s.pc.Walk? && s.tasks != [] && s.pc.rest != [] && r == s.pc.rest[0] && r < |s.tasks|
    requires s.pc.p < |s.tasks[|s.tasks| - 1].acc| && SameAnalysis(s, s') && WalkOk(s, war)
    requires s'.pc.Walk? && s'.pc.rest == s.pc.rest[1..]
    requires forall i: nat, b :: Touched(s', i, b) == Touched(s, i, b) && Wrote(s', i, b) == Wrote(s, i, b)
    requires forall i: nat, j: nat :: i < |s.tasks| && j < |s.tasks| && Safe(s.tasks, i, j) ==> Safe(s'.tasks, i, j)
    requires r == |s.tasks| - 1 || Safe(s'.tasks, r, |s.tasks| - 1)
    requires forall i: nat :: i < |s.tasks| && Safe(s.tasks, i, r) ==> i == |s.tasks| - 1 || Safe(s'.tasks, i, |s.tasks| - 1)
    ensures WalkOk(s', war)
  {
    hide Safe, Hits, Stores;
    var t := |s.tasks| - 1;
    forall i: nat | Relevant(s', war, i, CurBlock(s'))
      ensures i == t || Safe(s'.tasks, i, t) || Pending(s'.tasks, s'.pc.rest, i)
    {
      assert Relevant(s, war, i, CurBlock(s));
      if Pending(s.tasks, s.pc.rest, i) {
        var x :| 0 <= x < |s.pc.rest| && s.pc.rest[x] < |s.tasks| && (s.pc.rest[x] == i || Safe(s.tasks, i, s.pc.rest[x]));
        if x > 0 {
          assert s'.pc.rest[x - 1] == s.pc.rest[x];
          assert s'.pc.rest[x - 1] == i || Safe(s'.tasks, i, s'.pc.rest[x - 1]);
        } else {
          assert r == i || Safe(s.tasks, i, r);
        }
      }
    }
  }

  lemma LeaveWalkOrder(s: State, war: bool)
    requires s.pc.Walk? && s.tasks != [] && s.pc.rest == [] && s.pc.p < |s.tasks[|s.tasks| - 1].acc|
    requires MineOk(s.tasks[|s.tasks| - 1].acc, s.elems, s.base, |s.tasks| - 1)
    requires Ready(s) && OrderInv(s, war)
    ensures OrderInv(DoReader(s), war)
  {
    var s' := DoReader(s);
    var t := |s.tasks| - 1;
    var b := CurBlock(s);
    WroteTouched(s);
    assert Advanced(s, s', b, true);
    assert Grows(s.tasks, s'.tasks);
    hide Safe, Hits, Stores;
    forall i: nat | Relevant(s, war, i, b) && i != t ensures Safe(s'.tasks, i, t) {
    }
    forall i: nat | i < t && (Wrote(s, i, b) || (war && Touched(s, i, b))) ensures Safe(s'.tasks, i, t) {
      assert Relevant(s, war, i, b);
    }
    AccessOrder(s, s', war, b, true);
  }

  // ---- every step -----------------------------------------------------------

  lemma AnalyseOrder(s: State, war: bool)
    requires WF(s) && Enabled(s, Analyse) && Ready(s) && OrderInv(s, war) && GoodStep(s, Analyse, war)
    requires HeldBack(Do(s, Analyse).tasks)
    ensures OrderInv(Do(s, Analyse), war)
  {
    var c := s.tasks[|s.tasks| - 1].acc[s.pc.p];
    ScanFacts(s);
    assert ElemOk(s.elems[s.base + c.arg], s.elems, |s.tasks|);
    assert AtAccess(s, c);
    hide OrderInv, Ready, HeldBack;
    if c.block !in s.table || s.elems[s.table[c.block]].out {
      WriterOrder(s, c, war);
    } else if c.out {
      EnterWalkOrder(s, c, war);
    } else if OwnerAlive(s, s.table[c.block]) {
      EnterJoinOrder(s, c, war);
    } else {
      ReplaceOrder(s, c, war);
    }
  }

  lemma WalkOrder(s: State, war: bool)
    requires WF(s) && s.pc.Walk? && Ready(s) && OrderInv(s, war) && HeldBack(DoReader(s).tasks)
    ensures OrderInv(DoReader(s), war)
  {
    hide OrderInv, Ready, HeldBack, DoReader;
    if s.pc.rest == [] { LeaveWalkOrder(s, war); } else { ReaderOrder(s, war); }
  }

  /** Steps of other threads, and the end of the call. */
  predicate IsQuiet(a: Step) { !IsAnalysis(a) && !a.Spawn? }

  /** A task may move on, but only started tasks close or release. */
  predicate MovesOn(t: Task, t': Task) {
    && t'.acc == t.acc && t'.last == t.last
    && (Released(t) ==> Released(t')) && (Released(t') ==> Started(t))
    && (t'.notify == t.notify || (Started(t) && Released(t')))
  }

  lemma MoveQuiet(ts: seq<Task>, ts': seq<Task>)
    requires |ts'| == |ts| && forall k :: 0 <= k < |ts| ==> MovesOn(ts[k], ts'[k])
    ensures Grows(ts, ts')
  {
  }

  lemma CallMoves(s: State, a: Step, k: nat)
    requires WF(s) && Enabled(s, a) && (a.Finish? || a.Publication? || a.ParentClaim? || a.ParentPut?) && k < |s.tasks|
    requires s.tasks[|s.tasks| - 1].status == Creating || s.pc.Claiming? || s.pc.Putting?
    requires Rank(s.tasks[|s.tasks| - 1].status) < Rank(Releasing) || s.pc.Putting?
    ensures |Do(s, a).tasks| == |s.tasks| && MovesOn(s.tasks[k], Do(s, a).tasks[k])
  {
    hide WF;
  }

  lemma AgentMoves(s: State, a: Step, k: nat)
    requires WF(s) && Enabled(s, a) && !ByParent(a) && k < |s.tasks|
    ensures |Do(s, a).tasks| == |s.tasks| && MovesOn(s.tasks[k], Do(s, a).tasks[k])
  {
    var n := |s.tasks|;
    if a.Fire? || a.Swap? || a.Enqueue? {
      assert TaskOk(s.tasks[a.k], a.k, n);
      HandMoves(s, a, k);
    } else {
      if a.PopFront? || a.Steal? { assert Within(s.deques[a.d], 0, n); }
      OtherMoves(s, a, k);
    }
  }

  lemma FireMoves(s: State, f: nat, k: nat)
    requires f < |s.tasks| && s.tasks[f].hand.Popped? && s.tasks[f].hand.x < |s.tasks| && k < |s.tasks| && s.tasks[f].hand.x != f
    ensures |DoFire(s, f).tasks| == |s.tasks| && MovesOn(s.tasks[k], DoFire(s, f).tasks[k])
  {
  }

  lemma SwapMoves(s: State, f: nat, k: nat)
    requires f < |s.tasks| && s.tasks[f].hand.Claim? && s.tasks[f].hand.x < |s.tasks| && k < |s.tasks| && s.tasks[f].hand.x != f
    ensures |DoSwap(s, f).tasks| == |s.tasks| && MovesOn(s.tasks[k], DoSwap(s, f).tasks[k])
  {
  }

  lemma EnqueueMoves(s: State, f: nat, d: nat, k: nat)
    requires f < |s.tasks| && s.tasks[f].hand.Put? && s.tasks[f].hand.x < |s.tasks| && k < |s.tasks| && d < |s.deques|
    requires s.tasks[f].hand.x != f
    ensures |DoEnqueue(s, f, d).tasks| == |s.tasks| && MovesOn(s.tasks[k], DoEnqueue(s, f, d).tasks[k])
  {
  }

  lemma HandMoves(s: State, a: Step, k: nat)
    requires WF(s) && Enabled(s, a) && (a.Fire? || a.Swap? || a.Enqueue?) && k < |s.tasks|
    ensures |Do(s, a).tasks| == |s.tasks| && MovesOn(s.tasks[k], Do(s, a).tasks[k])
  {
    assert TaskOk(s.tasks[a.k], a.k, |s.tasks|);
    hide WF, MovesOn, DoFire, DoSwap, DoEnqueue;
    if a.Fire? { FireMoves(s, a.k, k); }
    else if a.Swap? { SwapMoves(s, a.k, k); }
    else { EnqueueMoves(s, a.k, a.d, k); }
  }

  lemma OtherMoves(s: State, a: Step, k: nat)
    requires WF(s) && Enabled(s, a) && !ByParent(a) && !a.Fire? && !a.Swap? && !a.Enqueue? && k < |s.tasks|
    ensures |Do(s, a).tasks| == |s.tasks| && MovesOn(s.tasks[k], Do(s, a).tasks[k])
  {
  }

  lemma QuietSteps(s: State, a: Step)
    requires WF(s) && Enabled(s, a) && IsQuiet(a) && CreatingOk(s.tasks, s.pc)
    ensures var s' := Do(s, a);
      && SameAnalysis(s, s') && Grows(s.tasks, s'.tasks) && (s.pc.Walk? ==> s'.pc == s.pc)
      && forall k :: 0 <= k < |s.tasks| ==> s'.tasks[k].last == s.tasks[k].last
  {
    var s' := Do(s, a);
    forall k | 0 <= k < |s.tasks| ensures |s'.tasks| == |s.tasks| && MovesOn(s.tasks[k], s'.tasks[k]) {
      if ByParent(a) { CallMoves(s, a, k); } else { AgentMoves(s, a, k); }
    }
    QuietShape(s, a);
    MoveQuiet(s.tasks, s'.tasks);
    assert forall k :: 0 <= k < |s.tasks| ==> Analysed(s', k) == Analysed(s, k);
  }

  lemma QuietShape(s: State, a: Step)
    requires WF(s) && Enabled(s, a) && IsQuiet(a)
    ensures var s' := Do(s, a);
      && |s'.tasks| == |s.tasks| && s'.elems == s.elems && s'.table == s.table && s'.base == s.base
      && (s'.pc == s.pc || (!Analysing(s'.pc) && (Analysing(s.pc) ==>
            s.pc.Scan? && s.tasks != [] && s.pc.p == |s.tasks[|s.tasks| - 1].acc|)))
  {
    if a.Fire? || a.Swap? || a.Enqueue? {
      HandShape(s, a);
    } else if a.PopFront? || a.Steal? {
      assert Within(s.deques[a.d], 0, |s.tasks|);
      hide WF;
    } else {
      hide WF;
    }
  }

  lemma HandShape(s: State, a: Step)
    requires WF(s) && Enabled(s, a) && (a.Fire? || a.Swap? || a.Enqueue?)
    ensures var s' := Do(s, a);
      |s'.tasks| == |s.tasks| && s'.elems == s.elems && s'.table == s.table && s'.base == s.base && s'.pc == s.pc
  {
    assert TaskOk(s.tasks[a.k], a.k, |s.tasks|);
    hide WF;
  }

  lemma StepFacts(s: State)
    requires WF(s) && CountInv(s)
    ensures HeldBack(s.tasks) && Ready(s) && CreatingOk(s.tasks, s.pc)
  {
    CountHoldsBack(s);
    hide HeldBack, WF;
  }

  lemma StepOrder(s: State, a: Step, war: bool)
    requires WF(s) && CountInv(s) && OrderInv(s, war) && Enabled(s, a) && GoodStep(s, a, war)
    ensures OrderInv(Do(s, a), war)
  {
    StepFacts(s);
    StepKeeps(s, a);
    StepFacts(Do(s, a));
    if IsQuiet(a) {
      hide OrderInv, HeldBack, CountInv, WF, Do, Grows, SameAnalysis, Enabled;
      QuietSteps(s, a);
      QuietOrder(s, Do(s, a), war);
    } else {
      hide OrderInv, HeldBack, CountInv, WF, Grows, Ready, JoinSafe, DropKeeps;
      if a.Spawn? { SpawnOrder(s, a.args, war); }
      else if a.Analyse? { AnalyseOrder(s, war); }
      else if a.Reader? { WalkOrder(s, war); }
      else { JoinOrder(s, war); }
    }
  }
  // ---- whole runs -----------------------------------------------------------

  /** A run whose RAR joins are sound and, with `war`, that drops no live reader. */
  ghost predicate GoodRun(threads: nat, tr: seq<State>, steps: seq<Step>, war: bool) {
    IsRun(threads, tr, steps) && forall i :: 0 <= i < |steps| ==>
      Next(tr[i], steps[i], tr[i + 1]) && GoodStep(tr[i], steps[i], war)
  }

  lemma {:induction false} RunOrder(threads: nat, tr: seq<State>, steps: seq<Step>, war: bool, i: nat)
    requires GoodRun(threads, tr, steps, war) && i < |tr|
    ensures OrderInv(tr[i], war)
  {
    hide *;
    GoodIsRun(threads, tr, steps, war);
    if i > 0 {
      GoodAt(threads, tr, steps, war, i - 1);
      RunOrder(threads, tr, steps, war, i - 1);
      RunStep(threads, tr, steps, i - 1);
      StepOrder(tr[i - 1], steps[i - 1], war);
    } else {
      InitOrder(threads, war);
    }
  }

  lemma InitOrder(threads: nat, war: bool)
    ensures OrderInv(Init(threads), war)
  {
  }

  lemma GoodIsRun(threads: nat, tr: seq<State>, steps: seq<Step>, war: bool)
    requires GoodRun(threads, tr, steps, war)
    ensures IsRun(threads, tr, steps) && |tr| == |steps| + 1 && tr[0] == Init(threads)
  {
  }

  lemma GoodAt(threads: nat, tr: seq<State>, steps: seq<Step>, war: bool, i: nat)
    requires GoodRun(threads, tr, steps, war) && i < |steps|
    ensures WF(tr[i]) && Enabled(tr[i], steps[i]) && GoodStep(tr[i], steps[i], war)
  {
    hide WF, Enabled, Do, GoodStep;
    assert Next(tr[i], steps[i], tr[i + 1]);
  }

  /** The blocks task t declares, and those it declares to write. */
  predicate Uses(t: Task, b: int) { Hits(t.acc, |t.acc|, b) }
  predicate Modifies(t: Task, b: int) { Stores(t.acc, |t.acc|, b) }

  /** i and j conflict on b in a way that the chosen strength covers. */
  predicate Conflict(ts: seq<Task>, war: bool, i: nat, j: nat, b: int)
    requires i < |ts| && j < |ts|
  {
    (Modifies(ts[i], b) && Uses(ts[j], b)) || (war && Uses(ts[i], b) && Modifies(ts[j], b))
  }

  lemma OrderedMeans(s: State, war: bool, i: nat, j: nat, b: int)
    requires TasksOk(s.tasks) && CountInv(s) && OrderInv(s, war)
    requires i < j < |s.tasks| && Conflict(s.tasks, war, i, j, b) && Started(s.tasks[j])
    ensures Released(s.tasks[i])
  {
    CountHoldsBack(s);
    StartedAnalysed(s, i);
    StartedAnalysed(s, j);
    hide WF, CountInv, TablesOk, OwnersOk, WalkOk, BranchOk, LastsOk, HeldBack, Safe, Hits, Stores, Started, Released, Analysed;
    assert Ordered(s, war, i, j, b);
    SafeStarted(s.tasks, i, j);
  }

  /** Once the newest task has started, all are analysed. */
  lemma StartedAnalysed(s: State, k: nat)
    requires CountInv(s) && k < |s.tasks|
    ensures k < |s.tasks| - 1 || Started(s.tasks[k]) ==> Analysed(s, k) == |s.tasks[k].acc|
  {
    hide BalanceOk, HandsOk, AwaitedOk, TokensOk;
  }

  /** In every state of such a run, a task that has been scheduled finds every
      earlier sibling it conflicts with released. */
  lemma ConflictOrdering(threads: nat, tr: seq<State>, steps: seq<Step>, war: bool, n: nat, i: nat, j: nat, b: int)
    requires GoodRun(threads, tr, steps, war) && n < |tr| && i < j < |tr[n].tasks|
    requires Conflict(tr[n].tasks, war, i, j, b) && Started(tr[n].tasks[j])
    ensures Released(tr[n].tasks[i])
  {
    RunKeeps(threads, tr, steps, n);
    RunOrder(threads, tr, steps, war, n);
    OrderedMeans(tr[n], war, i, j, b);
  }

  // ---- what the stacks say stays said ----------------------------------------

  lemma OnePushGrows(s: State, s': State, w: nat)
    requires AtMostOnePush(s, s', w)
    ensures Grows(s.tasks, s'.tasks)
  {
    hide Grows;
    SameGrows(s.tasks);
    if s'.tasks != s.tasks { PushGrows(s, w); }
  }

  lemma SpawnGrows(ts: seq<Task>, t: Task)
    requires PhasesOk(ts)
    ensures Grows(ts, ts + [t])
  {
    assert forall k :: 0 <= k < |ts| ==> (ts + [t])[k] == ts[k];
  }

  lemma SpawnedTasks(s: State, args: seq<Arg>)
    requires WF(s) && s.pc.Idle?
    ensures Do(s, Spawn(args)).tasks == s.tasks + [NewTask(args)]
  {
  }

  lemma StepGrows(s: State, a: Step)
    requires WF(s) && CountInv(s) && Enabled(s, a)
    ensures Grows(s.tasks, Do(s, a).tasks)
  {
    StepFacts(s);
    hide Grows, WF, CountInv, Do, HeldBack, AtMostOnePush;
    if a.Spawn? {
      SpawnedTasks(s, a.args);
      SpawnGrows(s.tasks, NewTask(a.args));
    } else if IsAnalysis(a) {
      var w := AnalysisPushes(s, a);
      OnePushGrows(s, Do(s, a), w);
    } else {
      QuietSteps(s, a);
    }
  }

  lemma GrowsLonger(ts: seq<Task>, ts': seq<Task>)
    requires Grows(ts, ts')
    ensures |ts| <= |ts'|
  {
  }
}
