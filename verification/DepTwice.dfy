/** What a lapped thief can do to the tasks: a run of the composed machine over 257 tasks
    in which one body runs twice and another never. */
module DepTwice {
  import opened DepMachine
  import opened DepCount
  import opened DepDeques
  import opened DepWhole
  import opened Bytes
  import Q = Deque
  import R = DequeRuns

  /** One thread with its deque, and one thief. */
  ghost predicate Reached(c: Full) {
    exists cs, acts :: FullRun(1, 1, cs, acts) && |cs| == |acts| + 1 && cs[|acts|] == c
  }

  lemma Go(c: Full, act: Act)
    requires Reached(c) && CanAct(c, act)
    ensures Reached(DoAct(c, act))
  {
    hide CanAct, DoAct, FullStart;
    var cs, acts :| FullRun(1, 1, cs, acts) && |cs| == |acts| + 1 && cs[|acts|] == c;
    var c' := DoAct(c, act);
    var cs', acts' := cs + [c'], acts + [act];
    forall i | 0 <= i < |acts'| ensures CanAct(cs'[i], acts'[i]) && cs'[i + 1] == DoAct(cs'[i], acts'[i]) {
      if i < |acts| { assert CanAct(cs[i], acts[i]) && cs[i + 1] == DoAct(cs[i], acts[i]); }
    }
    assert FullRun(1, 1, cs', acts') && cs'[|acts'|] == c';
  }

  /** A task without arguments, scheduled and not run yet. */
  const READY := Task([], Scheduled, 0, 0, false, [], [], Empty, None, 0)

  predicate Plain(ts: seq<Task>) {
    forall k :: 0 <= k < |ts| ==> ts[k] == READY.(status := ts[k].status, runs := ts[k].runs)
  }

  function Cfg(ts: seq<Task>, pc: Pc, q: Q.State, serves: Option<Server>): Full {
    Full(State(ts, map[], [], pc, 0, []), [q], [serves], map[])
  }

  lemma CfgWF(ts: seq<Task>, pc: Pc, q: Q.State, serves: Option<Server>)
    requires Plain(ts) && (pc == Idle || (ts != [] && pc in {Scan(0, 0), Claiming, DepMachine.Putting}))
    ensures WF(Cfg(ts, pc, q, serves).core)
  {
    forall k | 0 <= k < |ts| ensures TaskOk(ts[k], k, |ts|) && ts[k].acc == [] { }
  }

  lemma PlainMore(ts: seq<Task>, st: Status, n: nat)
    requires Plain(ts)
    ensures Plain(ts + [READY.(status := st, runs := n)])
  {
  }

  /** tpc_call up to the swap. */
  lemma CallOne(ts: seq<Task>, q: Q.State)
    requires Plain(ts) && Reached(Cfg(ts, Idle, q, None))
    ensures Reached(Cfg(ts + [READY], DepMachine.Putting, q, None))
  {
    hide Reached, WF, Plain;
    var c0 := Cfg(ts, Idle, q, None);
    CfgWF(ts, Idle, q, None);
    Go(c0, Core(Spawn([])));
    var c1 := Cfg(ts + [READY.(status := Creating)], Scan(0, 0), q, None);
    assert NewElems([], |ts|) == [] && Accesses([], 0) == [];
    assert Do(c0.core, Spawn([])).tasks == c1.core.tasks && Do(c0.core, Spawn([])).elems == [];
    assert DoAct(c0, Core(Spawn([]))) == c1;
    PlainMore(ts, Creating, 0);
    CfgWF(c1.core.tasks, Scan(0, 0), q, None);
    Go(c1, Core(Finish));
    var c2 := Cfg(ts + [READY.(status := Created)], Claiming, q, None);
    assert Do(c1.core, Finish).tasks == c2.core.tasks;
    assert DoAct(c1, Core(Finish)) == c2;
    PlainMore(ts, Created, 0);
    CfgWF(c2.core.tasks, Claiming, q, None);
    Go(c2, Core(ParentClaim));
    assert Do(c2.core, ParentClaim).tasks == ts + [READY];
    assert DoAct(c2, Core(ParentClaim)) == Cfg(ts + [READY], DepMachine.Putting, q, None);
  }

  /** An access inside a call on the deque. */
  lemma Touch(ts: seq<Task>, pc: Pc, q: Q.State, serves: Option<Server>, b: Q.Step, q': Q.State)
    requires Reached(Cfg(ts, pc, q, serves)) && Q.Enabled(q, b) && |q.entries| == Q.SIZE && (b.Check? ==> serves.Some?)
    requires Inside(q, b) && Given(q, b) == Q.None && q' == Q.Do(q, b)
    ensures Reached(Cfg(ts, pc, q', serves))
  {
    hide Reached, Q.Do, Q.LooksFull;
    var c := Cfg(ts, pc, q, serves);
    assert [q][0 := q'] == [q'];
    Go(c, On(0, b));
    assert DoAct(c, On(0, b)) == Cfg(ts, pc, q', serves);
  }

  /** A call on the deque returns task x, and its body starts. */
  lemma Hand(ts: seq<Task>, q: Q.State, b: Q.Step, x: nat, q': Q.State)
    requires Reached(Cfg(ts, Idle, q, None)) && Q.Enabled(q, b) && |q.entries| == Q.SIZE
    requires Given(q, b) == Q.Some(x) && x < |ts| && q' == Q.Do(q, b)
    ensures Reached(Cfg(ts[x := ts[x].(runs := ts[x].runs + 1)], Idle, q', None))
  {
    hide Reached, Q.Do, Q.LooksFull;
    var c := Cfg(ts, Idle, q, None);
    assert [q][0 := q'] == [q'];
    Go(c, On(0, b));
    assert DoAct(c, On(0, b)) == Cfg(ts[x := ts[x].(runs := ts[x].runs + 1)], Idle, q', None);
  }

  /** enqueue on the empty deque. */
  lemma EnqueueOne(ts: seq<Task>, e: seq<nat>, hs: seq<Q.Thief>)
    requires |e| == Q.SIZE && Reached(Cfg(ts + [READY], DepMachine.Putting, R.Bare(|ts|, e, hs), None))
    ensures Reached(Cfg(ts + [READY], Idle, R.Loaded(|ts|, e[|ts| % Q.SIZE := |ts|], hs), None))
  {
    var k := |ts|;
    Opposite(k, k);
    Increment(k);
    SlotOf(k);
    hide Byte, Bytes.Next, Prev, Slot, Reached;
    var q := R.Bare(k, e, hs);
    var ts1, who := ts + [READY], Some(Parent);
    Begins(ts1, q);
    Touch(ts1, DepMachine.Putting, q.(owner := Q.Adding(k)), who, Q.Check, q.(owner := Q.Writing(k)));
    var q1 := q.(owner := Q.Storing(k), entries := e[k % Q.SIZE := k]);
    Touch(ts1, DepMachine.Putting, q.(owner := Q.Writing(k)), who, Q.Write, q1);
    Stores(ts1, q1, R.Loaded(k, e[k % Q.SIZE := k], hs));
  }

  lemma Begins(ts: seq<Task>, q: Q.State)
    requires ts != [] && |q.entries| == Q.SIZE && q.owner == Q.Resting && Reached(Cfg(ts, DepMachine.Putting, q, None))
    ensures Reached(Cfg(ts, DepMachine.Putting, q.(owner := Q.Adding(|ts| - 1)), Some(Parent)))
  {
    hide Reached;
    var c := Cfg(ts, DepMachine.Putting, q, None);
    var q' := q.(owner := Q.Adding(|ts| - 1));
    assert [q][0 := q'] == [q'] && c.serves[0 := Some(Parent)] == [Some(Parent)];
    Go(c, Begin(0, Parent));
    assert DoAct(c, Begin(0, Parent)) == Cfg(ts, DepMachine.Putting, q', Some(Parent));
  }

  lemma Stores(ts: seq<Task>, q: Q.State, q': Q.State)
    requires q.owner.Storing? && |q.entries| == Q.SIZE && q' == Q.Do(q, Q.Store)
    requires Reached(Cfg(ts, DepMachine.Putting, q, Some(Parent)))
    ensures Reached(Cfg(ts, Idle, q', None))
  {
    hide Reached, Q.Do;
    var c := Cfg(ts, DepMachine.Putting, q, Some(Parent));
    assert [q][0 := q'] == [q'] && c.serves[0 := None] == [None];
    Go(c, On(0, Q.Store));
    assert DoAct(c, On(0, Q.Store)) == Cfg(ts, Idle, q', None);
  }

  lemma StoreOne(ts: seq<Task>, e: seq<nat>, hs: seq<Q.Thief>)
    requires Plain(ts) && |e| == Q.SIZE && Reached(Cfg(ts, Idle, R.Bare(|ts|, e, hs), None))
    ensures Reached(Cfg(ts + [READY], Idle, R.Loaded(|ts|, e[|ts| % Q.SIZE := |ts|], hs), None))
  {
    hide Reached, R.Bare, R.Loaded, Plain;
    CallOne(ts, R.Bare(|ts|, e, hs));
    EnqueueOne(ts, e, hs);
  }

  /** The owner takes its only task, by the race for it, and runs it. */
  lemma RunOne(ts: seq<Task>, e: seq<nat>, hs: seq<Q.Thief>)
    requires |e| == Q.SIZE && e[|ts| % Q.SIZE] == |ts| && Reached(Cfg(ts + [READY], Idle, R.Loaded(|ts|, e, hs), None))
    ensures Reached(Cfg(ts + [READY.(runs := 1)], Idle, R.Bare(|ts| + 1, e, hs), None))
  {
    var k := |ts|;
    SlotOf(k);
    SameByte(k + 1, k);
    Increment(k);
    Decrement(k + 1);
    hide Byte, Bytes.Next, Prev, Slot, Reached, Q.LooksFull;
    var ts1 := ts + [READY];
    var q := Q.State(Byte(k), Byte(k), e, Q.Reserved, hs, k, k);
    Touch(ts1, Idle, R.Loaded(k, e, hs), None, Q.Dequeue, q);
    var q1 := q.(owner := Q.Racing(k, Byte(k)));
    Touch(ts1, Idle, q, None, Q.Look, q1);
    var q2 := Q.State(Byte(k), Byte(k + 1), e, Q.Closing(Q.Some(k), Byte(k)), hs, k + 1, k);
    Touch(ts1, Idle, q1, None, Q.Race, q2);
    var q3 := Q.State(Byte(k + 1), Byte(k + 1), e, Q.Popped(Q.Some(k)), hs, k + 1, k + 1);
    Touch(ts1, Idle, q2, None, Q.Close, q3);
    Hand(ts1, q3, Q.Return, k, R.Bare(k + 1, e, hs));
    assert ts1[k := ts1[k].(runs := ts1[k].runs + 1)] == ts + [READY.(runs := 1)];
  }

  /** The thief reads top, bottom and the only entry, task 0. */
  lemma SeeZero(ts: seq<Task>, e: seq<nat>)
    requires |e| == Q.SIZE && e[0] == 0 && Reached(Cfg(ts, Idle, R.Loaded(0, e, [Q.Away]), None))
    ensures Reached(Cfg(ts, Idle, R.Loaded(0, e, [Q.SawEntry(Byte(0), 0, 0)]), None))
  {
    SameByte(1, 0);
    SameByte(2, 0);
    Increment(1);
    SlotOf(0);
    hide Byte, Bytes.Next, Prev, Slot, Reached, Q.LooksFull;
    var q := R.Loaded(0, e, [Q.Away]);
    var q1, q2, q3 := q.(thieves := [Q.SawTop(Byte(0), 0)]), q.(thieves := [Q.SawBoth(Byte(0), 0)]), q.(thieves := [Q.SawEntry(Byte(0), 0, 0)]);
    Touch(ts, Idle, q, None, Q.ReadTop(0), q1);
    Touch(ts, Idle, q1, None, Q.ReadBottom(0), q2);
    Touch(ts, Idle, q2, None, Q.ReadEntry(0), q3);
  }

  function Ran(n: nat): (ts: seq<Task>)
    ensures |ts| == n
  {
    seq(n, _ => READY.(runs := 1))
  }

  lemma RanPlain(n: nat)
    ensures Plain(Ran(n)) && Ran(n) + [READY.(runs := 1)] == Ran(n + 1)
  {
  }

  lemma PassOne(k: nat, e: seq<nat>, hs: seq<Q.Thief>)
    requires |e| == Q.SIZE && Reached(Cfg(Ran(k), Idle, R.Bare(k, e, hs), None))
    ensures Reached(Cfg(Ran(k + 1), Idle, R.Bare(k + 1, e[k % Q.SIZE := k], hs), None))
  {
    hide Reached, Cfg, R.Bare, R.Loaded, Plain, Ran, Byte;
    RanPlain(k);
    StoreOne(Ran(k), e, hs);
    RunOne(Ran(k), e[k % Q.SIZE := k], hs);
  }

  /** n more tasks pass while the thief holds still. */
  lemma {:induction false} PassOn(k: nat, n: nat, e: seq<nat>, hs: seq<Q.Thief>) returns (e': seq<nat>)
    requires |e| == Q.SIZE && Reached(Cfg(Ran(k), Idle, R.Bare(k, e, hs), None))
    ensures |e'| == Q.SIZE && Reached(Cfg(Ran(k + n), Idle, R.Bare(k + n, e', hs), None))
    decreases n
  {
    hide Reached, Cfg, R.Bare, R.Loaded, Plain, Ran, Byte;
    e' := e;
    if n > 0 {
      PassOne(k, e, hs);
      e' := PassOn(k + 1, n - 1, e[k % Q.SIZE := k], hs);
    }
  }

  lemma ReachStart() returns (e: seq<nat>)
    ensures |e| == Q.SIZE && Reached(Cfg([], Idle, R.Bare(0, e, [Q.Away]), None))
  {
    hide Byte;
    e := seq(Q.SIZE, _ => 0);
    var c := FullStart(1, 1);
    assert c.qs == [R.Init(1)] && R.Init(1).thieves == [Q.Away] && R.Init(1).entries == e;
    assert c.core.deques == [] && c.serves == [None];
    var none: seq<Act> := [];
    assert FullRun(1, 1, [c], none) && [c][|none|] == c;
    assert c == Cfg([], Idle, R.Bare(0, e, [Q.Away]), None);
  }

  /** The swap of the lapped thief, and its return. */
  lemma StealAgain(ts: seq<Task>, e: seq<nat>)
    requires |e| == Q.SIZE && ts != [] && Reached(Cfg(ts, Idle, R.Loaded(256, e, [Q.SawEntry(Byte(0), 0, 0)]), None))
    ensures Reached(Cfg(ts[0 := ts[0].(runs := ts[0].runs + 1)], Idle, R.Bare(257, e, [Q.Away]), None))
  {
    SameByte(256, 0);
    Increment(256);
    hide Byte, Bytes.Next, Prev, Slot, Reached;
    var q := R.Loaded(256, e, [Q.SawEntry(Byte(0), 0, 0)]);
    var q1 := R.Bare(257, e, [Q.Stolen(Q.Some(0))]);
    Touch(ts, Idle, q, None, Q.Swap(0), q1);
    Hand(ts, q1, Q.Leave(0), 0, R.Bare(257, e, [Q.Away]));
  }

  /** After exactly 256 advances: task 0 has run twice, and task 256 is on no deque, in
      nobody's hands, and has not run. */
  lemma BodyCanRunTwice() returns (c: Full)
    ensures Reached(c) && |c.core.tasks| == 257 && c.core.tasks[0].runs == 2
    ensures c.core.tasks[256].status == Scheduled && c.core.tasks[256].runs == 0
    ensures c.core.pc == Idle && |c.qs| == 1 && AtRest(c.qs[0]) && R.Contents(c.qs[0]) == []
  {
    var e := ReachStart();
    hide Reached, Plain, Byte, R.Bare, R.Loaded;
    var h := Q.SawEntry(Byte(0), 0, 0);
    RanPlain(0);
    assert Ran(0) == [] && [] + [READY] == [READY] && Ran(1) == [READY.(runs := 1)];
    StoreOne([], e, [Q.Away]);
    SeeZero([READY], e[0 := 0]);
    RunOne([], e[0 := 0], [h]);
    assert [] + [READY.(runs := 1)] == Ran(1);
    var f := PassOn(1, 255, e[0 := 0], [h]);
    RanPlain(256);
    StoreOne(Ran(256), f, [h]);
    var ts := Ran(256) + [READY];
    StealAgain(ts, f[0 := 256]);
    c := Cfg(ts[0 := ts[0].(runs := ts[0].runs + 1)], Idle, R.Bare(257, f[0 := 256], [Q.Away]), None);
    BareRests(257, f[0 := 256]);
  }

  lemma BareRests(k: nat, e: seq<nat>)
    requires |e| == Q.SIZE
    ensures AtRest(R.Bare(k, e, [Q.Away])) && R.Contents(R.Bare(k, e, [Q.Away])) == []
  {
    hide Byte;
  }
}
