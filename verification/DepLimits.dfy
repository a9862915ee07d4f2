/** Where the ordering guarantees end: what one join must achieve to keep the invariant,
    and two runs in which a conflicting sibling starts too early. */
module DepLimits {
  import opened DepMachine
  import opened DepCount
  import opened DepOrder
  import opened DepFragment

  // ---- joining a reader element ---------------------------------------------

  /** Pushing the newest task on one stack adds one way of being ordered before it. */
  lemma {:induction false} SafeBackEarlier(ts: seq<Task>, ts': seq<Task>, i: nat, j: nat)
    requires i < |ts| == |ts'| && j < |ts| - 1
    requires forall k :: 0 <= k < |ts| ==> Released(ts'[k]) == Released(ts[k])
    requires forall k :: 0 <= k < |ts| ==> forall x: nat :: x < |ts| - 1 && x in ts'[k].notify ==> x in ts[k].notify
    requires Safe(ts', i, j)
    ensures Safe(ts, i, j)
    decreases j
  {
    if !Released(ts'[i]) {
      var k: nat :| k < j && j in ts'[k].notify && (k == i || Safe(ts', i, k));
      if k != i { SafeBackEarlier(ts, ts', i, k); }
    }
  }

  lemma {:induction false} SafeBack(s: State, w: nat, i: nat)
    requires s.tasks != [] && w < |s.tasks| - 1 && i < |s.tasks| - 1 && Safe(PushOn(s, w).tasks, i, |s.tasks| - 1)
    ensures i == w || Safe(s.tasks, i, w) || Safe(s.tasks, i, |s.tasks| - 1)
  {
    var ts, ts', t := s.tasks, PushOn(s, w).tasks, |s.tasks| - 1;
    if !Released(ts'[i]) {
      var k: nat :| k < t && t in ts'[k].notify && (k == i || Safe(ts', i, k));
      if k != i { SafeBackEarlier(ts, ts', i, k); }
    }
  }

  lemma {:induction false} JoinCovers(s: State, war: bool, i: nat)
    requires WF(s) && s.pc.Join? && Ready(s) && OrderInv(s, war) && OrderInv(DoJoinPush(s), war)
    requires i < |s.tasks| - 1 && Wrote(s, i, CurBlock(s)) && |DoJoinPush(s).tasks| == |s.tasks|
    ensures Safe(DoJoinPush(s).tasks, i, |s.tasks| - 1)
  {
    hide *;
    var s' := DoJoinPush(s);
    JoinParts(s, war);
    JoinShape(s);
    AdvancedTouched(s, s', CurBlock(s), false);
    OrderedIn(s', war, i, |s.tasks| - 1, CurBlock(s));
  }

  lemma {:induction false} OrderedIn(s: State, war: bool, i: nat, j: nat, b: int)
    requires OrderInv(s, war) && i < j < |s.tasks| && Wrote(s, i, b) && Touched(s, j, b)
    ensures Safe(s.tasks, i, j)
  {
    assert Ordered(s, war, i, j, b);
  }

  lemma JoinTasks(s: State)
    requires WF(s) && s.pc.Join?
    ensures s.tasks != []
    ensures var e := Joined(s);
      if e.dep.Some? && e.dep.value < |s.elems| && s.elems[e.dep.value].owner < |s.tasks| - 1
         && !Skips(s, e.owner, s.elems[e.dep.value].owner)
      then DoJoinPush(s).tasks == PushOn(s, s.elems[e.dep.value].owner).tasks
           && |s.tasks| - 1 != e.owner && s.tasks[|s.tasks| - 1].last != Some(e.owner)
      else DoJoinPush(s).tasks == s.tasks
  {
    assert ElemOk(Joined(s), s.elems, |s.tasks|);
  }

  lemma {:induction false} JoinCoversBack(s: State, war: bool, i: nat)
    requires WF(s) && s.pc.Join? && Ready(s) && OrderInv(s, war) && OrderInv(DoJoinPush(s), war)
    requires i < |s.tasks| - 1 && Wrote(s, i, CurBlock(s)) && !Safe(s.tasks, i, |s.tasks| - 1)
    ensures Covers(s, Joined(s), i)
  {
    JoinTasks(s);
    JoinCovers(s, war, i);
    var e := Joined(s);
    hide OrderInv, WF, Safe, Wrote, Ready, DoJoinPush, PushOn, CurBlock, Joined, Skips;
    if DoJoinPush(s).tasks != s.tasks { SafeBack(s, s.elems[e.dep.value].owner, i); }
  }

  lemma JoinReady(s: State)
    requires WF(s) && CountInv(s) && s.pc.Join?
    ensures Ready(s) && HeldBack(DoJoinPush(s).tasks) && s.tasks != []
  {
    hide CountInv, DoJoinPush, HeldBack;
    StepFacts(s);
    StepKeeps(s, JoinPush);
    StepFacts(Do(s, JoinPush));
  }

  lemma JoinSafeBack(s: State, war: bool)
    requires WF(s) && s.pc.Join? && Ready(s) && OrderInv(s, war) && OrderInv(DoJoinPush(s), war)
    ensures JoinSafe(s)
  {
    JoinParts(s, war);
    hide OrderInv, WF, Ready, DoJoinPush, Wrote, Safe, Covers, CurBlock, Joined;
    forall i: nat | i < |s.tasks| - 1 && Wrote(s, i, CurBlock(s)) && !Safe(s.tasks, i, |s.tasks| - 1)
      ensures Covers(s, Joined(s), i)
    {
      JoinCoversBack(s, war, i);
    }
  }

  /** One step: the push that follows a join keeps the ordering invariant if and only if
      it meets JoinSafe. */
  lemma JoinIsExact(s: State, war: bool)
    requires WF(s) && CountInv(s) && OrderInv(s, war) && s.pc.Join?
    ensures OrderInv(DoJoinPush(s), war) <==> JoinSafe(s)
  {
    hide *;
    JoinReady(s);
    if JoinSafe(s) { JoinOrder(s, war); }
    if OrderInv(DoJoinPush(s), war) { JoinSafeBack(s, war); }
  }

  // ---- runs outside the fragment --------------------------------------------

  /** Some run ends in s; with `simple`, one whose argument lists are in the fragment. */
  ghost predicate Reachable(simple: bool, s: State) {
    exists tr, steps :: IsRun(1, tr, steps) && |tr| == |steps| + 1 && tr[|steps|] == s && (simple ==> FragmentRun(1, tr, steps))
  }

  lemma Longer(tr: seq<State>, steps: seq<Step>, a: Step, s': State)
    requires IsRun(1, tr, steps) && Next(tr[|steps|], a, s')
    ensures IsRun(1, tr + [s'], steps + [a])
  {
    hide Next, Init;
    var tr', steps' := tr + [s'], steps + [a];
    forall i | 0 <= i < |steps'| ensures Next(tr'[i], steps'[i], tr'[i + 1]) {
      if i < |steps| { assert Next(tr[i], steps[i], tr[i + 1]); }
    }
  }

  lemma LongerFragment(tr: seq<State>, steps: seq<Step>, a: Step, s': State)
    requires FragmentRun(1, tr, steps) && IsRun(1, tr + [s'], steps + [a]) && (a.Spawn? ==> RawSafeArgs(a.args))
    ensures FragmentRun(1, tr + [s'], steps + [a])
  {
    hide IsRun, RawSafeArgs;
  }

  lemma Go(simple: bool, s: State, a: Step)
    requires Reachable(simple, s) && Enabled(s, a) && (simple && a.Spawn? ==> RawSafeArgs(a.args))
    ensures WF(s) && Reachable(simple, Do(s, a))
  {
    hide WF, Enabled, Do, CountInv, Init, RawSafeArgs, IsRun, FragmentRun;
    var tr, steps :| IsRun(1, tr, steps) && |tr| == |steps| + 1 && tr[|steps|] == s && (simple ==> FragmentRun(1, tr, steps));
    RunKeeps(1, tr, steps, |steps|);
    var s' := Do(s, a);
    assert Next(s, a, s');
    Longer(tr, steps, a, s');
    if simple { LongerFragment(tr, steps, a, s'); }
    assert (tr + [s'])[|steps + [a]|] == s';
  }

  lemma AtStart()
    ensures Reachable(true, State([], map[], [], Idle, 0, [[]]))
  {
    var s := Init(1);
    assert s.deques[0] == [] && s.deques == [[]];
    hide Init;
    assert IsRun(1, [s], []) && FragmentRun(1, [s], []) && [s][0] == s;
  }

  lemma AnyArgs(s: State)
    requires Reachable(true, s)
    ensures Reachable(false, s)
  {
    hide IsRun, FragmentRun;
  }

  /** A task that writes blocks 0 and 1, scheduled and queued. */
  const WRITER := Task([Access(0, 0, true), Access(0, 1, true)], Scheduled, 0, 0, false, [], [], Empty, None, 0)

  function WriterQueued(): State {
    State([WRITER], map[0 := 0, 1 := 0], [Elem(true, 0, [], None)], Idle, 0, [[0]])
  }

  function WriterScanned(): State {
    State([WRITER.(status := Creating)], map[0 := 0, 1 := 0], [Elem(true, 0, [], None)], Scan(2, 0), 0, [[]])
  }

  lemma ReachWriterScanned()
    ensures Reachable(false, WriterScanned())
  {
    hide Reachable, WF;
    AtStart();
    var s0 := State([], map[], [], Idle, 0, [[]]);
    AnyArgs(s0);
    var args := [Arg(false, true, 0, 1)];
    assert Accesses(args, 1) == [Access(0, 0, true), Access(0, 1, true)] by {
      assert Blocks(0, 2, 1, true) == [];
      assert Blocks(0, 1, 1, true) == [Access(0, 1, true)];
      assert Accesses(args, 0) == [];
    }
    Go(false, s0, Spawn(args));
    var s1 := State([WRITER.(status := Creating)], map[], [Elem(true, 0, [], None)], Scan(0, 0), 0, [[]]);
    assert NewElems(args, 0) == s1.elems;
    assert Do(s0, Spawn(args)).tasks == s1.tasks && Do(s0, Spawn(args)).elems == s1.elems;
    assert Do(s0, Spawn(args)) == s1;
    Go(false, s1, Analyse);
    var s2 := s1.(table := map[0 := 0], pc := Scan(1, 0));
    assert Do(s1, Analyse) == s2;
    Go(false, s2, Analyse);
    assert Do(s2, Analyse) == WriterScanned();
  }

  lemma ReachWriter()
    ensures Reachable(false, WriterQueued())
  {
    hide Reachable, WF;
    ReachWriterScanned();
    var s3 := WriterScanned();
    Go(false, s3, Finish);
    var s4 := s3.(tasks := [WRITER.(status := Created)], pc := Claiming);
    assert Do(s3, Finish) == s4;
    Go(false, s4, ParentClaim);
    var s5 := s4.(tasks := [WRITER], pc := Putting);
    assert Do(s4, ParentClaim) == s5;
    Go(false, s5, ParentPut(0));
    assert s5.deques[0] + [0] == [0] && [s5.deques[0]][0 := [0]] == [[0]];
    assert Do(s5, ParentPut(0)).deques == [[0]];
    assert Do(s5, ParentPut(0)) == WriterQueued();
  }

  // RAW: a reader whose first IN argument pushed on the writer leaves the element of
  // its second one without dependent_metadata; the next reader then waits for nobody.

  const READER := Task([Access(0, 0, false), Access(1, 1, false)], Created, 1, 0, false, [], [], Empty, Some(0), 0)

  function ReaderCreated(): State {
    State([WRITER.(notify := [1]), READER], map[0 := 1, 1 := 2],
          [Elem(true, 0, [], None), Elem(false, 1, [1], Some(0)), Elem(false, 1, [1], None)], Idle, 1, [[0]])
  }

  function ReaderPushed(): State {
    State([WRITER.(notify := [1]), READER.(status := Creating, waitfor := 0)], map[0 := 1, 1 := 0],
          [Elem(true, 0, [], None), Elem(false, 1, [1], Some(0)), Elem(false, 1, [1], None)], Scan(1, 1), 1, [[0]])
  }

  lemma ReachReaderPushed()
    ensures Reachable(false, ReaderPushed())
  {
    hide Reachable, WF;
    ReachWriter();
    var s0 := WriterQueued();
    var args := [Arg(false, false, 0, 0), Arg(false, false, 1, 1)];
    assert Accesses(args, 2) == [Access(0, 0, false), Access(1, 1, false)] by {
      assert Blocks(0, 1, 0, false) == [] && Blocks(0, 0, 0, false) == [Access(0, 0, false)];
      assert Blocks(1, 2, 1, false) == [] && Blocks(1, 1, 1, false) == [Access(1, 1, false)];
      assert Accesses(args, 0) == [] && Accesses(args, 1) == [Access(0, 0, false)];
    }
    Go(false, s0, Spawn(args));
    var e0, e1, e2 := Elem(true, 0, [], None), Elem(false, 1, [1], None), Elem(false, 1, [1], None);
    var t1 := READER.(status := Creating, waitfor := 0, last := None);
    var s1 := State([WRITER, t1], map[0 := 0, 1 := 0], [e0, e1, e2], Scan(0, 0), 1, [[0]]);
    assert NewElems(args, 1) == [e1, e2];
    assert Do(s0, Spawn(args)).tasks == s1.tasks && Do(s0, Spawn(args)).elems == s1.elems;
    assert Do(s0, Spawn(args)) == s1;
    Go(false, s1, Analyse);
    var s2 := ReaderPushed();
    assert [1] + s1.tasks[0].notify == [1];
    assert Do(s1, Analyse).tasks == s2.tasks && Do(s1, Analyse).elems == s2.elems && Do(s1, Analyse).table == s2.table;
    assert Do(s1, Analyse) == s2;
  }

  lemma ReachReader()
    ensures Reachable(false, ReaderCreated())
  {
    hide Reachable, WF;
    ReachReaderPushed();
    var s2 := ReaderPushed();
    Go(false, s2, Analyse);
    var s3 := s2.(table := map[0 := 1, 1 := 2], pc := Scan(2, 1));
    assert Do(s2, Analyse) == s3;
    Go(false, s3, Finish);
    var s4 := s3.(tasks := [WRITER.(notify := [1]), READER.(status := Creating)], pc := Publish);
    assert Do(s3, Finish) == s4;
    Go(false, s4, Publication);
    assert Do(s4, Publication) == ReaderCreated();
  }

  const LATE := Task([Access(0, 1, false)], Creating, 0, 0, false, [], [], Empty, None, 0)

  /** The reader of block 1 has joined its element, and found nothing to push on. */
  function LateAnalysed(): State {
    State([WRITER.(notify := [1]), READER, LATE], map[0 := 1, 1 := 2],
          [Elem(true, 0, [], None), Elem(false, 1, [1], Some(0)), Elem(false, 1, [2, 1], None), Elem(false, 2, [2], None)],
          Scan(1, 0), 3, [[0]])
  }

  lemma ReachLate()
    ensures Reachable(false, LateAnalysed())
  {
    hide Reachable, WF;
    ReachReader();
    var s0 := ReaderCreated();
    var args := [Arg(false, false, 1, 1)];
    assert Accesses(args, 1) == [Access(0, 1, false)] by {
      assert Blocks(0, 2, 1, false) == [] && Blocks(0, 1, 1, false) == [Access(0, 1, false)] && Accesses(args, 0) == [];
    }
    Go(false, s0, Spawn(args));
    var s1 := State([WRITER.(notify := [1]), READER, LATE], s0.table, s0.elems + [Elem(false, 2, [2], None)], Scan(0, 0), 3, [[0]]);
    assert NewElems(args, 2) == [Elem(false, 2, [2], None)];
    assert Do(s0, Spawn(args)).tasks == s1.tasks && Do(s0, Spawn(args)).elems == s1.elems;
    assert Do(s0, Spawn(args)) == s1;
    Go(false, s1, Analyse);
    var s2 := LateAnalysed().(pc := Join(0, 0));
    assert [2] + s1.elems[2].readers == [2, 1];
    assert Do(s1, Analyse).elems == s2.elems;
    assert Do(s1, Analyse) == s2;
    Go(false, s2, JoinPush);
    assert Do(s2, JoinPush) == LateAnalysed();
  }

  /** Outside the fragment the reader of block 1 is scheduled while its writer runs. */
  lemma RawCanBeLost() returns (s: State)
    ensures Reachable(false, s) && |s.tasks| == 3
    ensures Modifies(s.tasks[0], 1) && Uses(s.tasks[2], 1) && Started(s.tasks[2]) && !Released(s.tasks[0])
  {
    hide Reachable, WF;
    ReachLate();
    var s3 := LateAnalysed();
    var w, r := WRITER.(notify := [1]), READER;
    Go(false, s3, Finish);
    var s4 := s3.(tasks := [w, r, LATE.(status := Created)], pc := Claiming);
    assert Do(s3, Finish) == s4;
    Go(false, s4, ParentClaim);
    s := s4.(tasks := [w, r, LATE.(status := Scheduled)], pc := Putting);
    assert Do(s4, ParentClaim) == s;
    assert WRITER.acc[1].block == 1 && WRITER.acc[1].out && LATE.acc[0].block == 1;
  }

  // WAR: the first reader is being released, so the third one starts a new list and
  // the second is forgotten; the writer then waits for the third only.

  function Uses0(out: bool, st: Status, runs: nat, closed: bool): Task {
    Task([Access(0, 0, out)], st, 0, 0, closed, [], [], Empty, None, runs)
  }

  function Fresh0(t: nat, out: bool): Elem { Elem(out, t, if out then [] else [t], None) }

  lemma Spawn0(s: State, out: bool)
    requires Reachable(true, s) && s.pc == Idle
    ensures Reachable(true, State(s.tasks + [Uses0(out, Creating, 0, false)], s.table, s.elems + [Fresh0(|s.tasks|, out)],
                                  Scan(0, 0), |s.elems|, s.deques))
  {
    var args := [Arg(false, out, 0, 0)];
    assert Accesses(args, 1) == [Access(0, 0, out)] by {
      assert Blocks(0, 1, 0, out) == [] && Blocks(0, 0, 0, out) == [Access(0, 0, out)] && Accesses(args, 0) == [];
    }
    assert NewElems(args, |s.tasks|) == [Fresh0(|s.tasks|, out)];
    hide Reachable, WF, Accesses, NewElems;
    Go(true, s, Spawn(args));
    assert Do(s, Spawn(args)).tasks == s.tasks + [Uses0(out, Creating, 0, false)];
  }

  /** The end of a call that pushed nothing, up to the winning swap. */
  lemma Claim0(ts: seq<Task>, out: bool, table: map<int, nat>, es: seq<Elem>, base: nat, dq: seq<seq<nat>>)
    requires Reachable(true, State(ts + [Uses0(out, Creating, 0, false)], table, es, Scan(1, 0), base, dq))
    ensures Reachable(true, State(ts + [Uses0(out, Scheduled, 0, false)], table, es, Putting, base, dq))
  {
    hide Reachable, WF;
    var s := State(ts + [Uses0(out, Creating, 0, false)], table, es, Scan(1, 0), base, dq);
    Go(true, s, Finish);
    var s1 := State(ts + [Uses0(out, Created, 0, false)], table, es, Claiming, base, dq);
    assert Do(s, Finish).tasks == s1.tasks;
    Go(true, s1, ParentClaim);
    assert Do(s1, ParentClaim).tasks == ts + [Uses0(out, Scheduled, 0, false)];
  }

  lemma Put0(s: State, q: seq<nat>)
    requires Reachable(true, s) && s.tasks != [] && s.pc == Putting && s.deques == [q] && |q| < CAPACITY
    ensures Reachable(true, s.(pc := Idle, deques := [q + [|s.tasks| - 1]]))
  {
    hide Reachable, WF;
    Go(true, s, ParentPut(0));
    assert Do(s, ParentPut(0)).deques == [q + [|s.tasks| - 1]];
  }

  function TwoReaders(): State {
    State([Uses0(false, Scheduled, 0, false), Uses0(false, Scheduled, 0, false)], map[0 := 0],
          [Elem(false, 0, [1, 0], None), Fresh0(1, false)], Idle, 1, [[0, 1]])
  }

  lemma ReachTwoReaders()
    ensures Reachable(true, TwoReaders())
  {
    hide Reachable, WF;
    AtStart();
    Spawn0(State([], map[], [], Idle, 0, [[]]), false);
    var r := Uses0(false, Scheduled, 0, false);
    var s1 := State([r.(status := Creating)], map[], [Fresh0(0, false)], Scan(0, 0), 0, [[]]);
    assert [] + [r.(status := Creating)] == s1.tasks && [] + [Fresh0(0, false)] == s1.elems;
    Go(true, s1, Analyse);
    assert Do(s1, Analyse) == s1.(table := map[0 := 0], pc := Scan(1, 0));
    Claim0([], false, map[0 := 0], [Fresh0(0, false)], 0, [[]]);
    var s2 := State([r], map[0 := 0], [Fresh0(0, false)], Putting, 0, [[]]);
    assert [] + [r] == s2.tasks;
    Put0(s2, []);
    assert [] + [0] == [0];
    Spawn0(s2.(pc := Idle, deques := [[0]]), false);
    var s3 := State([r, r.(status := Creating)], map[0 := 0], [Fresh0(0, false), Fresh0(1, false)], Scan(0, 0), 1, [[0]]);
    assert [r] + [r.(status := Creating)] == s3.tasks && [Fresh0(0, false)] + [Fresh0(1, false)] == s3.elems;
    JoinTwo(s3);
    Claim0([r], false, map[0 := 0], [Elem(false, 0, [1, 0], None), Fresh0(1, false)], 1, [[0]]);
    var s4 := TwoReaders().(pc := Putting, deques := [[0]]);
    assert [r] + [r] == s4.tasks;
    Put0(s4, [0]);
    assert [0] + [1] == [0, 1];
  }

  lemma JoinTwo(s: State)
    requires Reachable(true, s)
    requires s == State([Uses0(false, Scheduled, 0, false), Uses0(false, Creating, 0, false)], map[0 := 0],
                        [Fresh0(0, false), Fresh0(1, false)], Scan(0, 0), 1, [[0]])
    ensures Reachable(true, s.(pc := Scan(1, 0), elems := [Elem(false, 0, [1, 0], None), Fresh0(1, false)]))
  {
    hide Reachable, WF;
    Go(true, s, Analyse);
    var s1 := s.(elems := [Elem(false, 0, [1, 0], None), Fresh0(1, false)], pc := Join(0, 0));
    assert [1] + s.elems[0].readers == [1, 0];
    assert Do(s, Analyse).elems == s1.elems;
    Go(true, s1, JoinPush);
    assert Do(s1, JoinPush) == s1.(pc := Scan(1, 0));
  }

  /** Task k is taken from the front or the back, runs, and starts to be released. */
  lemma RunTo(s: State, a: Step, k: nat, rest: seq<nat>)
    requires Reachable(true, s) && k < |s.tasks| && s.tasks[k].status == Scheduled && s.tasks[k].runs == 0
    requires |s.deques| == 1 && ((a == Steal(0) && s.deques[0] == [k] + rest) || (a == PopFront(0) && s.deques[0] == rest + [k]))
    ensures Reachable(true, s.(deques := [rest], tasks := s.tasks[k := s.tasks[k].(status := Releasing, runs := 1)]))
  {
    hide Reachable, WF;
    Go(true, s, a);
    var s1 := s.(deques := [rest], tasks := s.tasks[k := s.tasks[k].(runs := 1)]);
    assert Do(s, a).deques == [rest];
    assert Do(s, a) == s1;
    Go(true, s1, End(k));
    var s2 := s1.(tasks := s.tasks[k := s.tasks[k].(runs := 1, status := Executed)]);
    assert Do(s1, End(k)).tasks == s2.tasks;
    Go(true, s2, Release(k));
    assert Do(s2, Release(k)).tasks == s.tasks[k := s.tasks[k].(status := Releasing, runs := 1)];
  }

  function ThirdDone(): State {
    State([Uses0(false, Releasing, 1, false), Uses0(false, Scheduled, 0, false), Uses0(false, Releasing, 1, true)], map[0 := 2],
          [Elem(false, 0, [1, 0], None), Fresh0(1, false), Fresh0(2, false)], Idle, 2, [[1]])
  }

  function ThirdSpawned(): State {
    State([Uses0(false, Releasing, 1, false), Uses0(false, Scheduled, 0, false), Uses0(false, Creating, 0, false)], map[0 := 0],
          [Elem(false, 0, [1, 0], None), Fresh0(1, false), Fresh0(2, false)], Scan(0, 0), 2, [[1]])
  }

  lemma ReachThirdSpawned()
    ensures Reachable(true, ThirdSpawned())
  {
    hide Reachable, WF;
    ReachTwoReaders();
    var r := Uses0(false, Scheduled, 0, false);
    var d := Uses0(false, Releasing, 1, false);
    assert [0] + [1] == [0, 1];
    RunTo(TwoReaders(), Steal(0), 0, [1]);
    var s1 := TwoReaders().(deques := [[1]], tasks := [d, r]);
    assert [r, r][0 := d] == [d, r];
    Spawn0(s1, false);
    var s2 := ThirdSpawned();
    assert [d, r] + [r.(status := Creating)] == s2.tasks && s1.elems + [Fresh0(2, false)] == s2.elems;
  }

  lemma ReachThirdDone()
    ensures Reachable(true, ThirdDone())
  {
    hide Reachable, WF;
    ReachThirdSpawned();
    var r := Uses0(false, Scheduled, 0, false);
    var d := Uses0(false, Releasing, 1, false);
    var es := [Elem(false, 0, [1, 0], None), Fresh0(1, false), Fresh0(2, false)];
    var s2 := ThirdSpawned();
    Go(true, s2, Analyse);
    assert Do(s2, Analyse) == s2.(table := map[0 := 2], pc := Scan(1, 0));
    assert [d, r] + [r.(status := Creating)] == s2.tasks;
    Claim0([d, r], false, map[0 := 2], es, 2, [[1]]);
    var s3 := State([d, r, r], map[0 := 2], es, Putting, 2, [[1]]);
    assert [d, r] + [r] == s3.tasks;
    Put0(s3, [1]);
    RunTo(s3.(pc := Idle, deques := [[1] + [2]]), PopFront(0), 2, [1]);
    var s4 := s3.(pc := Idle, deques := [[1]], tasks := [d, r, d]);
    assert [d, r, r][2 := d] == [d, r, d];
    Go(true, s4, Lock(2));
    assert Do(s4, Lock(2)).tasks == ThirdDone().tasks;
  }

  /** Even in the fragment, the writer is scheduled while the second reader waits in
      the deque, when the list that held it was replaced. */
  lemma WarCanBeLost() returns (s: State)
    ensures Reachable(true, s) && |s.tasks| == 4
    ensures Uses(s.tasks[1], 0) && Modifies(s.tasks[3], 0) && Started(s.tasks[3]) && !Released(s.tasks[1])
  {
    hide Reachable, WF;
    ReachThirdDone();
    var s0 := ThirdDone();
    Spawn0(s0, true);
    var es := s0.elems + [Fresh0(3, true)];
    var s1 := State(s0.tasks + [Uses0(true, Creating, 0, false)], map[0 := 2], es, Scan(0, 0), 3, [[1]]);
    Go(true, s1, Analyse);
    var s2 := s1.(table := map[0 := 3], pc := Walk(0, 0, [2]));
    assert map[0 := 2][0 := 3] == map[0 := 3];
    assert Do(s1, Analyse).pc == s2.pc;
    assert Do(s1, Analyse) == s2;
    Go(true, s2, Reader);
    var s3 := s2.(pc := Walk(0, 0, []));
    assert [2][1..] == [];
    assert Do(s2, Reader) == s3;
    Go(true, s3, Reader);
    assert Do(s3, Reader) == s3.(pc := Scan(1, 0));
    Claim0(s0.tasks, true, map[0 := 3], es, 3, [[1]]);
    s := State(s0.tasks + [Uses0(true, Scheduled, 0, false)], map[0 := 3], es, Putting, 3, [[1]]);
    assert s.tasks[1].acc[0].block == 0 && s.tasks[3].acc[0].block == 0 && s.tasks[3].acc[0].out;
  }
}
