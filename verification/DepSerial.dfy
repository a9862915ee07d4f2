/** Serial equivalence: a parallel run of one parent's tasks leaves the same store,
    and every body reads the same values, as running the tasks in spawn order. */
module DepSerial {
  import opened DepMachine
  import opened DepCount
  import opened DepOrder
  import opened DepFragment

  type Val = int
  type Store = int -> Val

  /** One access of a body to a block. */
  datatype Op = Read(b: int) | Write(b: int, v: Val) | Done

  /** A task body: what it does next is any function of what it has seen so far, and
      it stops after at most `len` accesses. */
  datatype Body = Body(args: seq<Arg>, len: nat, next: seq<Val> -> Op)

  function NextOp(p: Body, hist: seq<Val>): Op {
    if |hist| >= p.len then Done else p.next(hist)
  }

  function Footprint(p: Body): seq<Access> { Accesses(p.args, |p.args|) }

  /** A body touches declared blocks only, and writes declared outputs only. */
  ghost predicate WellBehaved(p: Body) {
    forall hist: seq<Val> ::
      match NextOp(p, hist)
      case Read(b) => Hits(Footprint(p), |Footprint(p)|, b)
      case Write(b, _) => Stores(Footprint(p), |Footprint(p)|, b)
      case Done => true
  }

  ghost predicate WellFormed(prog: seq<Body>) {
    forall k :: 0 <= k < |prog| ==> WellBehaved(prog[k])
  }

  // ---- the serial run -------------------------------------------------------

  ghost function Update(m: Store, b: int, v: Val): Store {
    c => if c == b then v else m(c)
  }

  /** What a body has seen, and the store, after k accesses of a run on its own. */
  ghost function After(p: Body, m: Store, k: nat): (seq<Val>, Store) {
    if k == 0 then ([], m)
    else
      var (h, n) := After(p, m, k - 1);
      match NextOp(p, h)
      case Done => (h, n)
      case Read(b) => (h + [n(b)], n)
      case Write(b, v) => (h + [v], Update(n, b, v))
  }

  ghost function Full(p: Body, m: Store): (seq<Val>, Store) { After(p, m, p.len) }

  /** The store after the first n tasks, one after the other. */
  ghost function SerialStore(prog: seq<Body>, m: Store, n: nat): Store
    requires n <= |prog|
  {
    if n == 0 then m else Full(prog[n - 1], SerialStore(prog, m, n - 1)).1
  }

  lemma {:induction false} AfterFrame(p: Body, m: Store, k: nat, b: int)
    requires WellBehaved(p) && !Stores(Footprint(p), |Footprint(p)|, b)
    ensures After(p, m, k).1(b) == m(b)
  {
    if k > 0 { AfterFrame(p, m, k - 1, b); }
  }

  lemma {:induction false} AfterLength(p: Body, m: Store, k: nat)
    ensures |After(p, m, k).0| <= k
    ensures NextOp(p, After(p, m, k).0) != Done ==> |After(p, m, k).0| == k
  {
    if k > 0 { AfterLength(p, m, k - 1); }
  }

  /** Once a body has nothing left to do, further steps change nothing. */
  lemma {:induction false} AfterDone(p: Body, m: Store, k: nat, l: nat)
    requires k <= l && NextOp(p, After(p, m, k).0) == Done
    ensures After(p, m, l) == After(p, m, k)
  {
    if k < l { AfterDone(p, m, k, l - 1); }
  }

  lemma {:induction false} AfterAhead(p: Body, m: Store, k: nat)
    requires k > p.len
    ensures NextOp(p, After(p, m, p.len).0) == Done
  {
    AfterLength(p, m, p.len);
  }

  /** A body whose history is complete has done what it does on its own. */
  lemma {:induction false} FinishedIsFull(p: Body, m: Store, h: seq<Val>)
    requires h == After(p, m, |h|).0 && NextOp(p, h) == Done
    ensures After(p, m, |h|) == Full(p, m)
  {
    if |h| <= p.len {
      AfterDone(p, m, |h|, p.len);
    } else {
      AfterAhead(p, m, |h|);
      AfterDone(p, m, p.len, |h|);
    }
  }

  // ---- the parallel run -----------------------------------------------------

  /** The machine, the blocks' contents, and what every body has seen. */
  datatype Exec = Exec(s: State, store: Store, hists: seq<seq<Val>>)

  datatype Move = Sched(a: Step) | Body1(k: nat)

  ghost predicate Running(s: State, k: nat) {
    k < |s.tasks| && s.tasks[k].runs > 0 && s.tasks[k].status == Scheduled
  }

  /** One access of the running body k. */
  ghost function Access1(prog: seq<Body>, x: Exec, k: nat): Exec
    requires k < |prog| && k < |x.hists|
  {
    match NextOp(prog[k], x.hists[k])
    case Done => x
    case Read(b) => x.(hists := x.hists[k := x.hists[k] + [x.store(b)]])
    case Write(b, v) => x.(hists := x.hists[k := x.hists[k] + [v]], store := Update(x.store, b, v))
  }

  ghost predicate Allowed(prog: seq<Body>, x: Exec, mv: Move) {
    match mv
    case Body1(k) => Running(x.s, k) && k < |prog| && k < |x.hists|
    case Sched(a) =>
      && WF(x.s) && Enabled(x.s, a)
      && (a.Spawn? ==> |x.s.tasks| < |prog| && a.args == prog[|x.s.tasks|].args)
      && (a.End? ==> a.k < |prog| && a.k < |x.hists| && NextOp(prog[a.k], x.hists[a.k]) == Done)
  }

  ghost function DoMove(prog: seq<Body>, x: Exec, mv: Move): Exec
    requires Allowed(prog, x, mv)
  {
    match mv
    case Body1(k) => Access1(prog, x, k)
    case Sched(a) => Exec(Do(x.s, a), x.store, if a.Spawn? then x.hists + [[]] else x.hists)
  }

  ghost predicate IsParallelRun(prog: seq<Body>, threads: nat, m: Store, xs: seq<Exec>, moves: seq<Move>) {
    && |xs| == |moves| + 1
    && xs[0] == Exec(Init(threads), m, [])
    && forall i :: 0 <= i < |moves| ==> Allowed(prog, xs[i], moves[i]) && xs[i + 1] == DoMove(prog, xs[i], moves[i])
  }

  /** If tasks i and j conflict at b, the stacks say that j waits for i. */
  ghost predicate Waits(s: State, i: nat, j: nat, b: int) {
    i < j < |s.tasks| && Conflict(s.tasks, true, i, j, b) ==> Safe(s.tasks, i, j)
  }

  /** Task j waits for every earlier task that it conflicts with. */
  ghost predicate Chained(s: State, j: nat) {
    forall i: nat, b: int :: Waits(s, i, j, b)
  }

  ghost predicate MoveChained(x: Exec, mv: Move) {
    mv == Sched(Finish) && x.s.tasks != [] ==> Chained(x.s, |x.s.tasks| - 1)
  }

  /** What is assumed of the calls: where the analysis of a call ends, its task waits, by a
      chain of stacks, for every unreleased task that it conflicts with. */
  ghost predicate CallsChained(xs: seq<Exec>, moves: seq<Move>) {
    forall i :: 0 <= i < |moves| && i < |xs| ==> MoveChained(xs[i], moves[i])
  }

  // ---- the invariant --------------------------------------------------------

  /** The store that the started bodies, each as far as it got, would have left. */
  ghost function Mixed(prog: seq<Body>, m: Store, x: Exec, n: nat, b: int): Val
    requires n <= |x.s.tasks| && |x.s.tasks| <= |prog| && |x.hists| == |x.s.tasks|
  {
    if n == 0 then m(b)
    else if Modifies(x.s.tasks[n - 1], b) && x.s.tasks[n - 1].runs > 0 then
      After(prog[n - 1], SerialStore(prog, m, n - 1), |x.hists[n - 1]|).1(b)
    else Mixed(prog, m, x, n - 1, b)
  }

  ghost predicate ShapeOk(prog: seq<Body>, x: Exec) {
    && |x.hists| == |x.s.tasks| <= |prog|
    && forall k :: 0 <= k < |x.s.tasks| ==>
         && x.s.tasks[k].acc == Footprint(prog[k])
         && (x.s.tasks[k].runs == 0 ==> x.hists[k] == [])
  }

  /** Body k has seen what it sees in the serial run. */
  ghost predicate HistOk(prog: seq<Body>, m: Store, x: Exec, k: nat)
    requires k < |x.hists| && k < |prog|
  {
    x.hists[k] == After(prog[k], SerialStore(prog, m, k), |x.hists[k]|).0
  }

  ghost predicate HistsOk(prog: seq<Body>, m: Store, x: Exec)
    requires ShapeOk(prog, x)
  {
    forall k :: 0 <= k < |x.hists| ==>
      && HistOk(prog, m, x, k)
      && (Rank(x.s.tasks[k].status) >= Rank(Executed) ==> NextOp(prog[k], x.hists[k]) == Done)
  }

  ghost predicate StoreOk(prog: seq<Body>, m: Store, x: Exec)
    requires ShapeOk(prog, x)
  {
    forall b :: x.store(b) == Mixed(prog, m, x, |x.s.tasks|, b)
  }

  /** The analysis of task j is over. */
  predicate Past(s: State, j: nat) { j < |s.tasks| - 1 || (j < |s.tasks| && !Analysing(s.pc)) }

  ghost predicate AllChained(s: State) {
    forall j: nat :: Past(s, j) ==> Chained(s, j)
  }

  ghost predicate MachineInv(s: State) {
    WF(s) && CountInv(s) && AllChained(s)
  }

  ghost predicate ExecInv(prog: seq<Body>, m: Store, x: Exec) {
    MachineInv(x.s) && ShapeOk(prog, x) && HistsOk(prog, m, x) && StoreOk(prog, m, x)
  }

  // ---- reading the mixed store ----------------------------------------------

  /** Bodies start once, after SCHEDULED, and have started by EXECUTED. */
  ghost predicate StartsOk(ts: seq<Task>) {
    forall k :: 0 <= k < |ts| ==>
      && (ts[k].runs > 0 ==> Started(ts[k]))
      && (Rank(ts[k].status) >= Rank(Executed) ==> ts[k].runs > 0)
  }

  lemma StartsFollow(s: State)
    requires TokensOk(s)
    ensures StartsOk(s.tasks)
  {
    forall k | 0 <= k < |s.tasks|
      ensures s.tasks[k].runs > 0 ==> Started(s.tasks[k])
      ensures Rank(s.tasks[k].status) >= Rank(Executed) ==> s.tasks[k].runs > 0
    {
      RunsOnce(s, k);
    }
  }

  lemma {:induction false} FinishedTask(prog: seq<Body>, m: Store, x: Exec, k: nat)
    requires ShapeOk(prog, x) && HistsOk(prog, m, x) && k < |x.hists| && Rank(x.s.tasks[k].status) >= Rank(Executed)
    ensures After(prog[k], SerialStore(prog, m, k), |x.hists[k]|) == Full(prog[k], SerialStore(prog, m, k))
    ensures x.hists[k] == Full(prog[k], SerialStore(prog, m, k)).0
  {
    assert HistOk(prog, m, x, k);
    FinishedIsFull(prog[k], SerialStore(prog, m, k), x.hists[k]);
  }

  /** If every earlier writer of b is released, the mixed store is the serial one. */
  lemma {:induction false} MixedEarlier(prog: seq<Body>, m: Store, x: Exec, n: nat, b: int)
    requires ShapeOk(prog, x) && HistsOk(prog, m, x) && WellFormed(prog) && StartsOk(x.s.tasks) && n <= |x.s.tasks|
    requires forall i :: 0 <= i < n && Modifies(x.s.tasks[i], b) ==> Released(x.s.tasks[i])
    ensures Mixed(prog, m, x, n, b) == SerialStore(prog, m, n)(b)
  {
    hide *;
    ShapeParts(prog, x);
    MixedIs(prog, m, x, n, b);
    SerialIs(prog, m, n);
    if n > 0 {
      MixedEarlier(prog, m, x, n - 1, b);
      var p, before := prog[n - 1], SerialStore(prog, m, n - 1);
      if Modifies(x.s.tasks[n - 1], b) {
        ReleasedRan(x.s.tasks, n - 1);
        FinishedTask(prog, m, x, n - 1);
      } else {
        Declared(prog, x, n - 1, b);
        AfterFrame(p, before, p.len, b);
      }
    }
  }

  lemma ShapeParts(prog: seq<Body>, x: Exec)
    requires ShapeOk(prog, x)
    ensures |x.hists| == |x.s.tasks| <= |prog|
  {
  }

  lemma {:induction false} SerialIs(prog: seq<Body>, m: Store, n: nat)
    requires n <= |prog|
    ensures SerialStore(prog, m, n) == if n == 0 then m else Full(prog[n - 1], SerialStore(prog, m, n - 1)).1
    ensures n > 0 ==> Full(prog[n - 1], SerialStore(prog, m, n - 1)) == After(prog[n - 1], SerialStore(prog, m, n - 1), prog[n - 1].len)
  {
    hide After;
  }

  lemma ReleasedRan(ts: seq<Task>, k: nat)
    requires StartsOk(ts) && k < |ts| && Released(ts[k])
    ensures ts[k].runs > 0 && Rank(ts[k].status) >= Rank(Executed)
  {
  }

  lemma Declared(prog: seq<Body>, x: Exec, k: nat, b: int)
    requires ShapeOk(prog, x) && WellFormed(prog) && k < |x.s.tasks| && !Modifies(x.s.tasks[k], b)
    ensures WellBehaved(prog[k]) && !Stores(Footprint(prog[k]), |Footprint(prog[k])|, b)
  {
    hide WellBehaved, Footprint, Stores;
  }

  /** Tasks that have not started, or do not write b, do not show. */
  lemma {:induction false} MixedLater(prog: seq<Body>, m: Store, x: Exec, n: nat, l: nat, b: int)
    requires ShapeOk(prog, x) && n <= l <= |x.s.tasks|
    requires forall i :: n <= i < l && Modifies(x.s.tasks[i], b) ==> x.s.tasks[i].runs == 0
    ensures Mixed(prog, m, x, l, b) == Mixed(prog, m, x, n, b)
  {
    hide Stores, After, SerialStore;
    if n < l { MixedLater(prog, m, x, n, l - 1, b); }
  }

  /** Conflict ordering, in the form used below. */
  lemma Before(s: State, i: nat, j: nat, b: int)
    requires MachineInv(s) && i < j < |s.tasks| && Conflict(s.tasks, true, i, j, b) && Started(s.tasks[j])
    ensures Released(s.tasks[i])
  {
    StartedPast(s, j);
    assert Chained(s, j);
    assert Waits(s, i, j, b);
    StepFacts(s);
    hide *;
    SafeStarted(s.tasks, i, j);
  }

  lemma StartedPast(s: State, j: nat)
    requires CountInv(s) && j < |s.tasks| && Started(s.tasks[j])
    ensures Past(s, j)
  {
    hide BalanceOk, HandsOk, AwaitedOk, TokensOk;
  }

  lemma MachineStarts(s: State)
    requires MachineInv(s)
    ensures StartsOk(s.tasks)
  {
    StartsFollow(s);
  }

  /** The block that running task k is about to use holds what it would hold in the
      serial run. */
  lemma {:induction false} SeesSerial(prog: seq<Body>, m: Store, x: Exec, k: nat, b: int)
    requires ExecInv(prog, m, x) && WellFormed(prog) && Running(x.s, k) && Uses(x.s.tasks[k], b)
    ensures x.store(b) == After(prog[k], SerialStore(prog, m, k), |x.hists[k]|).1(b)
  {
    hide MachineInv, HistsOk, Stores, Hits, WellBehaved;
    MachineStarts(x.s);
    var ts := x.s.tasks;
    LaterNotStarted(x.s, k, b);
    MixedLater(prog, m, x, k + 1, |ts|, b);
    if !Modifies(ts[k], b) {
      EarlierReleased(x.s, k, b);
      MixedEarlier(prog, m, x, k, b);
      assert WellBehaved(prog[k]);
      AfterFrame(prog[k], SerialStore(prog, m, k), |x.hists[k]|, b);
    }
  }

  lemma LaterNotStarted(s: State, k: nat, b: int)
    requires MachineInv(s) && Running(s, k) && Uses(s.tasks[k], b)
    ensures forall i :: k < i < |s.tasks| && Modifies(s.tasks[i], b) ==> s.tasks[i].runs == 0
  {
    MachineStarts(s);
    hide MachineInv;
    forall i | k < i < |s.tasks| && Modifies(s.tasks[i], b) ensures s.tasks[i].runs == 0 {
      if s.tasks[i].runs > 0 { Before(s, k, i, b); }
    }
  }

  lemma EarlierReleased(s: State, k: nat, b: int)
    requires MachineInv(s) && k < |s.tasks| && Started(s.tasks[k]) && Uses(s.tasks[k], b)
    ensures forall i :: 0 <= i < k && Modifies(s.tasks[i], b) ==> Released(s.tasks[i])
  {
    hide MachineInv;
    forall i | 0 <= i < k && Modifies(s.tasks[i], b) ensures Released(s.tasks[i]) { Before(s, i, k, b); }
  }

  // ---- body accesses --------------------------------------------------------

  lemma HitsStores(acc: seq<Access>, n: nat, b: int)
    requires n <= |acc| && Stores(acc, n, b)
    ensures Hits(acc, n, b)
  {
  }

  /** The mixed store after body k's access: only task k's own entry moves. */
  lemma {:induction false} MixedAccess(prog: seq<Body>, m: Store, x: Exec, k: nat, n: nat, b: int)
    requires ExecShape(prog, m, x, k) && n <= |x.s.tasks| && NextOp(prog[k], x.hists[k]) != Done
    requires forall i :: k < i < n && Modifies(x.s.tasks[i], b) ==> x.s.tasks[i].runs == 0
    ensures ShapeOk(prog, Access1(prog, x, k))
    ensures Mixed(prog, m, Access1(prog, x, k), n, b) ==
              if k < n && Modifies(x.s.tasks[k], b)
              then After(prog[k], SerialStore(prog, m, k), |x.hists[k]| + 1).1(b)
              else Mixed(prog, m, x, n, b)
  {
    hide *;
    AccessTarget(prog, m, x, k);
    AccessFrame(prog, x, k);
    var x' := Access1(prog, x, k);
    MixedIs(prog, m, x, n, b);
    MixedIs(prog, m, x', n, b);
    if n > 0 { MixedAccess(prog, m, x, k, n - 1, b); }
  }

  lemma AccessTarget(prog: seq<Body>, m: Store, x: Exec, k: nat)
    requires ExecShape(prog, m, x, k)
    ensures ShapeOk(prog, x) && Running(x.s, k) && k < |prog| && k < |x.hists| == |x.s.tasks| <= |prog| && x.s.tasks[k].runs > 0
  {
    hide Footprint;
  }

  lemma {:induction false} MixedIs(prog: seq<Body>, m: Store, x: Exec, n: nat, b: int)
    requires n <= |x.s.tasks| && |x.s.tasks| <= |prog| && |x.hists| == |x.s.tasks|
    ensures Mixed(prog, m, x, n, b) ==
      if n == 0 then m(b)
      else if Modifies(x.s.tasks[n - 1], b) && x.s.tasks[n - 1].runs > 0 then
        After(prog[n - 1], SerialStore(prog, m, n - 1), |x.hists[n - 1]|).1(b)
      else Mixed(prog, m, x, n - 1, b)
  {
    hide Stores, SerialStore, After;
  }

  lemma AccessFrame(prog: seq<Body>, x: Exec, k: nat)
    requires k < |prog| && k < |x.hists| == |x.s.tasks| <= |prog| && NextOp(prog[k], x.hists[k]) != Done
    requires ShapeOk(prog, x) && Running(x.s, k)
    ensures var x' := Access1(prog, x, k);
      && x'.s == x.s && ShapeOk(prog, x') && |x'.hists| == |x.hists| && |x'.hists[k]| == |x.hists[k]| + 1
      && forall i :: 0 <= i < |x.hists| && i != k ==> x'.hists[i] == x.hists[i]
  {
    hide Footprint;
  }

  ghost predicate ExecShape(prog: seq<Body>, m: Store, x: Exec, k: nat) {
    ShapeOk(prog, x) && Running(x.s, k)
  }

  /** Body k is about to touch a block. */
  ghost predicate Accessing(prog: seq<Body>, m: Store, x: Exec, k: nat)
    requires k < |prog| && k < |x.hists|
  {
    ExecInv(prog, m, x) && WellFormed(prog) && Running(x.s, k) && NextOp(prog[k], x.hists[k]) != Done
  }

  lemma AccessShape(prog: seq<Body>, m: Store, x: Exec, k: nat)
    requires k < |prog| && k < |x.hists| && |x.hists| == |x.s.tasks| && Accessing(prog, m, x, k)
    ensures var x' := Access1(prog, x, k);
      && ShapeOk(prog, x') && |x'.hists[k]| == |x.hists[k]| + 1
      && HistsOk(prog, m, x')
  {
    hide MachineInv, StoreOk, Hits, Stores, HistsOk, After, SerialStore;
    var x' := Access1(prog, x, k);
    var op := NextOp(prog[k], x.hists[k]);
    assert WellBehaved(prog[k]);
    if op.Read? {
      assert Uses(x.s.tasks[k], op.b);
      SeesSerial(prog, m, x, k, op.b);
    }
    HistAt(prog, m, x, k);
    AccessHists(prog, m, x, x', k);
  }

  lemma {:induction false} AccessHists(prog: seq<Body>, m: Store, x: Exec, x': Exec, k: nat)
    requires ShapeOk(prog, x) && HistsOk(prog, m, x) && ShapeOk(prog, x') && k < |x.hists|
    requires x' == Access1(prog, x, k) && x.s.tasks[k].status == Scheduled && NextOp(prog[k], x.hists[k]) != Done
    requires NextOp(prog[k], x.hists[k]).Read? ==>
               x.store(NextOp(prog[k], x.hists[k]).b)
                 == After(prog[k], SerialStore(prog, m, k), |x.hists[k]|).1(NextOp(prog[k], x.hists[k]).b)
    ensures HistsOk(prog, m, x')
  {
    hide SerialStore;
    forall i | 0 <= i < |x'.hists| ensures HistOk(prog, m, x', i) { assert HistOk(prog, m, x, i); }
  }

  lemma AccessStore(prog: seq<Body>, m: Store, x: Exec, k: nat)
    requires k < |prog| && k < |x.hists| && |x.hists| == |x.s.tasks| && Accessing(prog, m, x, k)
    requires ShapeOk(prog, Access1(prog, x, k))
    ensures StoreOk(prog, m, Access1(prog, x, k))
  {
    var x' := Access1(prog, x, k);
    forall b ensures x'.store(b) == Mixed(prog, m, x', |x'.s.tasks|, b) { AccessStoreAt(prog, m, x, k, b); }
  }

  lemma {:induction false} AccessStoreAt(prog: seq<Body>, m: Store, x: Exec, k: nat, b: int)
    requires k < |prog| && k < |x.hists| && |x.hists| == |x.s.tasks| && Accessing(prog, m, x, k)
    requires ShapeOk(prog, Access1(prog, x, k))
    ensures Access1(prog, x, k).store(b) == Mixed(prog, m, Access1(prog, x, k), |x.s.tasks|, b)
  {
    hide MachineInv, HistsOk, Hits, Stores, SerialStore, Mixed;
    var op := NextOp(prog[k], x.hists[k]);
    if Modifies(x.s.tasks[k], b) {
      HitsStores(x.s.tasks[k].acc, |x.s.tasks[k].acc|, b);
      LaterNotStarted(x.s, k, b);
      SeesSerial(prog, m, x, k, b);
      MixedAccess(prog, m, x, k, |x.s.tasks|, b);
      HistAt(prog, m, x, k);
    } else {
      MixedOthers(prog, m, x, k, |x.s.tasks|, b);
      assert WellBehaved(prog[k]);
    }
  }

  lemma HistAt(prog: seq<Body>, m: Store, x: Exec, k: nat)
    requires ShapeOk(prog, x) && HistsOk(prog, m, x) && k < |x.hists|
    ensures HistOk(prog, m, x, k)
  {
  }

  lemma {:induction false} MixedOthers(prog: seq<Body>, m: Store, x: Exec, k: nat, n: nat, b: int)
    requires ExecShape(prog, m, x, k) && n <= |x.s.tasks| && NextOp(prog[k], x.hists[k]) != Done
    requires !Modifies(x.s.tasks[k], b) && ShapeOk(prog, Access1(prog, x, k))
    ensures Mixed(prog, m, Access1(prog, x, k), n, b) == Mixed(prog, m, x, n, b)
  {
    hide Stores, SerialStore;
    if n > 0 { MixedOthers(prog, m, x, k, n - 1, b); }
  }

  lemma AccessKeeps(prog: seq<Body>, m: Store, x: Exec, k: nat)
    requires ExecInv(prog, m, x) && WellFormed(prog) && Allowed(prog, x, Body1(k))
    ensures ExecInv(prog, m, DoMove(prog, x, Body1(k)))
  {
    hide MachineInv, HistsOk, StoreOk, ShapeOk;
    ShapeParts(prog, x);
    if NextOp(prog[k], x.hists[k]) != Done {
      AccessShape(prog, m, x, k);
      AccessStore(prog, m, x, k);
    }
  }

  // ---- scheduling steps -----------------------------------------------------

  /** What a scheduling step may do to the bodies: start tasks that are SCHEDULED,
      end tasks that are running, or add one task. */
  ghost predicate BodiesMove(s: State, s': State) {
    && |s.tasks| <= |s'.tasks|
    && forall k :: 0 <= k < |s.tasks| ==>
         && s'.tasks[k].acc == s.tasks[k].acc
         && (s.tasks[k].runs > 0 ==> s'.tasks[k].runs > 0)
         && (s'.tasks[k].runs > 0 && s.tasks[k].runs == 0 ==> Started(s.tasks[k]))
  }

  lemma {:induction false} MixedStep(prog: seq<Body>, m: Store, x: Exec, x': Exec, n: nat, b: int)
    requires ShapeOk(prog, x) && HistsOk(prog, m, x) && WellFormed(prog) && MachineInv(x.s) && ShapeOk(prog, x')
    requires BodiesMove(x.s, x'.s) && x.hists <= x'.hists && n <= |x.s.tasks|
    ensures Mixed(prog, m, x', n, b) == Mixed(prog, m, x, n, b)
  {
    hide MachineInv, HistsOk, Stores, WellFormed, Mixed, After, SerialStore;
    MixedIs(prog, m, x, n, b);
    MixedIs(prog, m, x', n, b);
    if n > 0 {
      MixedStep(prog, m, x, x', n - 1, b);
      var k := n - 1;
      if Modifies(x.s.tasks[k], b) && x.s.tasks[k].runs == 0 && x'.s.tasks[k].runs > 0 {
        MachineStarts(x.s);
        HitsStores(x.s.tasks[k].acc, |x.s.tasks[k].acc|, b);
        EarlierReleased(x.s, k, b);
        MixedEarlier(prog, m, x, k, b);
        MixedIs(prog, m, x, n, b);
        StartsFresh(prog, m, x, x', k, b);
      }
    }
  }

  /** A body that has only just started has left its blocks as it found them. */
  lemma {:induction false} StartsFresh(prog: seq<Body>, m: Store, x: Exec, x': Exec, k: nat, b: int)
    requires ShapeOk(prog, x) && k < |x.s.tasks| && x.s.tasks[k].runs == 0 && k < |x'.hists| && x.hists <= x'.hists
    ensures After(prog[k], SerialStore(prog, m, k), |x'.hists[k]|).1(b) == SerialStore(prog, m, k)(b)
  {
    hide SerialStore;
    assert x'.hists[k] == x.hists[k] == [];
  }
  /** How one step moves one task's status and starts. */
  predicate BodyMoves(t: Task, t': Task, ends: bool) {
    && t'.acc == t.acc && t'.runs >= t.runs
    && (t'.runs != t.runs ==> t'.status == t.status)
    && (Rank(t'.status) >= Rank(Executed) ==> Rank(t.status) >= Rank(Executed) || ends)
  }

  lemma AnalysisBody(s: State, a: Step, k: nat)
    requires WF(s) && Enabled(s, a) && IsAnalysis(a) && k < |s.tasks|
    ensures |Do(s, a).tasks| == |s.tasks| && BodyMoves(s.tasks[k], Do(s, a).tasks[k], false)
  {
    var w := AnalysisPushes(s, a);
    hide WF;
  }

  lemma QuietBody(s: State, a: Step, k: nat)
    requires WF(s) && CountInv(s) && Enabled(s, a) && IsQuiet(a) && k < |s.tasks|
    ensures |Do(s, a).tasks| == |s.tasks| && BodyMoves(s.tasks[k], Do(s, a).tasks[k], a == End(k))
  {
    if a.Fire? || a.Swap? || a.Enqueue? {
      assert TaskOk(s.tasks[a.k], a.k, |s.tasks|);
      HandBody(s, a, k);
    } else if a.PopFront? || a.Steal? {
      assert Within(s.deques[a.d], 0, |s.tasks|);
      hide CountInv;
    } else {
      OtherBody(s, a, k);
    }
  }

  lemma HandBody(s: State, a: Step, k: nat)
    requires WF(s) && Enabled(s, a) && (a.Fire? || a.Swap? || a.Enqueue?) && k < |s.tasks|
    ensures |Do(s, a).tasks| == |s.tasks| && BodyMoves(s.tasks[k], Do(s, a).tasks[k], false)
  {
    assert TaskOk(s.tasks[a.k], a.k, |s.tasks|);
    hide WF, BodyMoves;
    if a.Fire? {
      FireBody(s, a.k, k);
    } else if a.Swap? {
      SwapBody(s, a.k, k);
    } else {
      EnqueueBody(s, a.k, a.d, k);
    }
  }

  lemma FireBody(s: State, r: nat, k: nat)
    requires r < |s.tasks| && s.tasks[r].hand.Popped? && s.tasks[r].hand.x < |s.tasks| && k < |s.tasks|
    ensures |DoFire(s, r).tasks| == |s.tasks| && BodyMoves(s.tasks[k], DoFire(s, r).tasks[k], false)
  {
  }

  lemma SwapBody(s: State, r: nat, k: nat)
    requires r < |s.tasks| && s.tasks[r].hand.Claim? && s.tasks[r].hand.x < |s.tasks| && k < |s.tasks|
    ensures |DoSwap(s, r).tasks| == |s.tasks| && BodyMoves(s.tasks[k], DoSwap(s, r).tasks[k], false)
  {
  }

  lemma EnqueueBody(s: State, r: nat, d: nat, k: nat)
    requires r < |s.tasks| && s.tasks[r].hand.Put? && s.tasks[r].hand.x < |s.tasks| && d < |s.deques| && k < |s.tasks|
    ensures |DoEnqueue(s, r, d).tasks| == |s.tasks| && BodyMoves(s.tasks[k], DoEnqueue(s, r, d).tasks[k], false)
  {
  }

  lemma OtherBody(s: State, a: Step, k: nat)
    requires WF(s) && PhasesOk(s.tasks) && CreatingOk(s.tasks, s.pc) && Enabled(s, a) && IsQuiet(a) && k < |s.tasks|
    requires !(a.Fire? || a.Swap? || a.Enqueue? || a.PopFront? || a.Steal?)
    ensures |Do(s, a).tasks| == |s.tasks| && BodyMoves(s.tasks[k], Do(s, a).tasks[k], a == End(k))
  {
    assert PhaseOk(s.tasks[k]);
    hide WF;
  }

  lemma SchedBodies(s: State, a: Step)
    requires MachineInv(s) && WF(s) && Enabled(s, a) && MachineInv(Do(s, a)) && !a.Spawn?
    ensures |Do(s, a).tasks| == |s.tasks| && BodiesMove(s, Do(s, a))
    ensures forall k :: 0 <= k < |s.tasks| ==> BodyMoves(s.tasks[k], Do(s, a).tasks[k], a == End(k))
  {
    hide WF, AllChained, CountInv, Enabled, Do;
    var s' := Do(s, a);
    MachineStarts(s');
    SomeTask(s, a);
    forall k | 0 <= k < |s.tasks|
      ensures |s'.tasks| == |s.tasks| && BodyMoves(s.tasks[k], s'.tasks[k], a == End(k))
    {
      if IsAnalysis(a) { AnalysisBody(s, a, k); } else { QuietBody(s, a, k); }
    }
    assert |s'.tasks| == |s.tasks| by { assert BodyMoves(s.tasks[0], s'.tasks[0], a == End(0)); }
    MovesStart(s, s', a);
  }

  lemma MovesStart(s: State, s': State, a: Step)
    requires |s'.tasks| == |s.tasks| && StartsOk(s'.tasks)
    requires forall k :: 0 <= k < |s.tasks| ==> BodyMoves(s.tasks[k], s'.tasks[k], a == End(k))
    ensures BodiesMove(s, s')
  {
  }

  lemma SomeTask(s: State, a: Step)
    requires WF(s) && Enabled(s, a) && !a.Spawn?
    ensures s.tasks != []
  {
    if a.PopFront? || a.Steal? { assert s.deques[a.d][0] < |s.tasks|; }
  }

  lemma SpawnShape(s: State, args: seq<Arg>)
    requires WF(s) && s.pc.Idle?
    ensures Do(s, Spawn(args)).tasks == s.tasks + [NewTask(args)]
    ensures BodiesMove(s, Do(s, Spawn(args)))
  {
  }

  /** x' is x with body number |x.s.tasks| spawned. */
  ghost predicate Spawned(prog: seq<Body>, x: Exec, x': Exec) {
    && |x.s.tasks| < |prog| && x'.store == x.store && x'.hists == x.hists + [[]]
    && x'.s.tasks == x.s.tasks + [NewTask(prog[|x.s.tasks|].args)]
  }

  lemma SpawnedShape(prog: seq<Body>, m: Store, x: Exec, x': Exec)
    requires ShapeOk(prog, x) && Spawned(prog, x, x')
    ensures ShapeOk(prog, x')
  {
  }

  lemma SpawnedHists(prog: seq<Body>, m: Store, x: Exec, x': Exec)
    requires ShapeOk(prog, x) && HistsOk(prog, m, x) && Spawned(prog, x, x') && ShapeOk(prog, x')
    ensures HistsOk(prog, m, x')
  {
    hide SerialStore, After, Accesses;
    forall i | 0 <= i < |x'.hists| ensures HistOk(prog, m, x', i) {
      if i < |x.hists| { HistAt(prog, m, x, i); } else { AfterZero(prog[i], SerialStore(prog, m, i)); }
    }
  }

  lemma {:induction false} SpawnedMixed(prog: seq<Body>, m: Store, x: Exec, x': Exec, b: int)
    requires ShapeOk(prog, x) && HistsOk(prog, m, x) && WellFormed(prog) && MachineInv(x.s)
    requires Spawned(prog, x, x') && ShapeOk(prog, x') && BodiesMove(x.s, x'.s)
    ensures Mixed(prog, m, x', |x'.s.tasks|, b) == Mixed(prog, m, x, |x.s.tasks|, b)
  {
    hide SerialStore, After, MachineInv, HistsOk, WellFormed, BodiesMove, Stores, Accesses;
    MixedStep(prog, m, x, x', |x.s.tasks|, b);
  }

  lemma SpawnKeepsExec(prog: seq<Body>, m: Store, x: Exec, args: seq<Arg>)
    requires ExecInv(prog, m, x) && WellFormed(prog) && Allowed(prog, x, Sched(Spawn(args)))
    requires MachineInv(Do(x.s, Spawn(args)))
    ensures ExecInv(prog, m, DoMove(prog, x, Sched(Spawn(args))))
  {
    SpawnShape(x.s, args);
    var x' := DoMove(prog, x, Sched(Spawn(args)));
    hide MachineInv, Do, BodiesMove, ShapeOk, HistsOk, Mixed, NewTask;
    SpawnedShape(prog, m, x, x');
    SpawnedHists(prog, m, x, x');
    forall b ensures x'.store(b) == Mixed(prog, m, x', |x'.s.tasks|, b) {
      SpawnedMixed(prog, m, x, x', b);
    }
  }

  lemma {:induction false} AfterZero(p: Body, m: Store)
    ensures After(p, m, 0) == ([], m)
  {
  }

  lemma SchedKeepsExec(prog: seq<Body>, m: Store, x: Exec, a: Step)
    requires ExecInv(prog, m, x) && WellFormed(prog) && Allowed(prog, x, Sched(a)) && !a.Spawn?
    requires MachineInv(Do(x.s, a))
    ensures ExecInv(prog, m, DoMove(prog, x, Sched(a)))
  {
    SchedBodies(x.s, a);
    hide MachineInv, SerialStore, After, BodiesMove;
    var x' := DoMove(prog, x, Sched(a));
    SchedShape(prog, m, x, x', a);
    forall b ensures x'.store(b) == Mixed(prog, m, x', |x'.s.tasks|, b) {
      MixedStep(prog, m, x, x', |x.s.tasks|, b);
    }
  }

  lemma SchedShape(prog: seq<Body>, m: Store, x: Exec, x': Exec, a: Step)
    requires ShapeOk(prog, x) && HistsOk(prog, m, x)
    requires |x'.s.tasks| == |x.s.tasks| && x'.hists == x.hists
    requires forall k :: 0 <= k < |x.s.tasks| ==> BodyMoves(x.s.tasks[k], x'.s.tasks[k], a == End(k))
    requires a.End? ==> a.k < |prog| && a.k < |x.hists| && NextOp(prog[a.k], x.hists[a.k]) == Done
    ensures ShapeOk(prog, x') && HistsOk(prog, m, x')
  {
    hide SerialStore, After;
    forall i | 0 <= i < |x'.hists| ensures HistOk(prog, m, x', i) { assert HistOk(prog, m, x, i); }
  }

  // ---- whole runs -----------------------------------------------------------

  lemma SameAccesses(s: State, a: Step)
    requires WF(s) && CountInv(s) && Enabled(s, a)
    ensures |s.tasks| <= |Do(s, a).tasks| && forall k :: 0 <= k < |s.tasks| ==> Do(s, a).tasks[k].acc == s.tasks[k].acc
  {
    hide WF, CountInv, Enabled, Do, BodyMoves;
    if a.Spawn? {
      assert Enabled(s, a) ==> s.pc.Idle? by { SpawnIdle(s, a.args); }
      SpawnShape(s, a.args);
    } else {
      SomeTask(s, a);
      forall k | 0 <= k < |s.tasks| ensures |Do(s, a).tasks| == |s.tasks| && Do(s, a).tasks[k].acc == s.tasks[k].acc {
        if IsAnalysis(a) { AnalysisBody(s, a, k); } else { QuietBody(s, a, k); }
        SameAcc(s.tasks[k], Do(s, a).tasks[k], a == End(k));
      }
      assert |Do(s, a).tasks| == |s.tasks| by { assert s.tasks[0].acc == s.tasks[0].acc; }
    }
  }

  lemma SpawnIdle(s: State, args: seq<Arg>)
    ensures Enabled(s, Spawn(args)) ==> s.pc.Idle?
  {
  }

  lemma SameAcc(t: Task, t': Task, ends: bool)
    requires BodyMoves(t, t', ends)
    ensures t'.acc == t.acc
  {
  }

  /** Only Finish ends an analysis. */
  lemma PastBefore(s: State, a: Step, j: nat)
    requires WF(s) && Enabled(s, a) && Past(Do(s, a), j)
    ensures j < |s.tasks| && (Past(s, j) || (a == Finish && j == |s.tasks| - 1))
  {
    if IsAnalysis(a) {
      var w := AnalysisPushes(s, a);
    } else if IsQuiet(a) {
      QuietShape(s, a);
      if a != Finish { QuietPc(s, a); }
    }
    hide WF;
  }

  lemma QuietPc(s: State, a: Step)
    requires WF(s) && Enabled(s, a) && IsQuiet(a) && a != Finish
    ensures Analysing(Do(s, a).pc) == Analysing(s.pc)
  {
    hide WF;
  }

  lemma ChainedGrows(s: State, s': State, j: nat)
    requires HeldBack(s.tasks) && Grows(s.tasks, s'.tasks) && |s.tasks| <= |s'.tasks| && j < |s.tasks| && Chained(s, j)
    requires forall k :: 0 <= k < |s.tasks| ==> s'.tasks[k].acc == s.tasks[k].acc
    ensures Chained(s', j)
  {
    hide Safe, Grows, HeldBack, Uses, Modifies;
    forall i: nat, b: int ensures Waits(s', i, j, b) {
      if i < j && Conflict(s'.tasks, true, i, j, b) {
        SameConflict(s.tasks, s'.tasks, i, j, b);
        assert Waits(s, i, j, b);
        SafeGrows(s.tasks, s'.tasks, i, j);
      }
    }
  }

  lemma SameConflict(ts: seq<Task>, ts': seq<Task>, i: nat, j: nat, b: int)
    requires i < |ts| && j < |ts| <= |ts'| && ts'[i].acc == ts[i].acc && ts'[j].acc == ts[j].acc
    ensures Conflict(ts', true, i, j, b) == Conflict(ts, true, i, j, b)
  {
    hide Hits, Stores;
  }

  /** The calls' chains last: stacks lose entries of released tasks only. */
  lemma ChainedStep(s: State, a: Step)
    requires MachineInv(s) && Enabled(s, a) && (a == Finish ==> s.tasks != [] && Chained(s, |s.tasks| - 1))
    ensures AllChained(Do(s, a))
  {
    var s' := Do(s, a);
    hide *;
    MachineParts(s);
    StepFacts(s);
    StepGrows(s, a);
    SameAccesses(s, a);
    forall j: nat | Past(s', j) ensures j < |s.tasks| && Chained(s, j) { ChainedBefore(s, a, j); }
    ChainsGrow(s, s');
  }

  lemma ChainedBefore(s: State, a: Step, j: nat)
    requires MachineInv(s) && Enabled(s, a) && (a == Finish ==> s.tasks != [] && Chained(s, |s.tasks| - 1))
    requires WF(s) && Past(Do(s, a), j)
    ensures j < |s.tasks| && Chained(s, j)
  {
    hide *;
    PastBefore(s, a, j);
    if Past(s, j) { ChainedAt(s, j); }
  }

  lemma ChainsGrow(s: State, s': State)
    requires HeldBack(s.tasks) && Grows(s.tasks, s'.tasks) && |s.tasks| <= |s'.tasks|
    requires forall k :: 0 <= k < |s.tasks| ==> s'.tasks[k].acc == s.tasks[k].acc
    requires forall j: nat :: Past(s', j) ==> j < |s.tasks| && Chained(s, j)
    ensures AllChained(s')
  {
    hide HeldBack, Grows, Past, Chained;
    forall j: nat | Past(s', j) ensures Chained(s', j) { ChainedGrows(s, s', j); }
  }

  lemma MachineParts(s: State)
    requires MachineInv(s)
    ensures WF(s) && CountInv(s)
  {
  }

  lemma ChainedAt(s: State, j: nat)
    requires MachineInv(s) && Past(s, j)
    ensures Chained(s, j)
  {
    hide WF, CountInv, Chained;
  }

  lemma MachineStep(s: State, a: Step)
    requires MachineInv(s) && Enabled(s, a) && (a == Finish ==> s.tasks != [] && Chained(s, |s.tasks| - 1))
    ensures MachineInv(Do(s, a))
  {
    hide CountInv, WF, AllChained, Chained;
    StepKeeps(s, a);
    ChainedStep(s, a);
  }

  lemma FinishHasTask(s: State)
    requires Enabled(s, Finish)
    ensures s.tasks != []
  {
  }

  lemma InitExec(prog: seq<Body>, threads: nat, m: Store)
    ensures ExecInv(prog, m, Exec(Init(threads), m, []))
  {
  }

  lemma {:induction false} RunExec(prog: seq<Body>, threads: nat, m: Store, xs: seq<Exec>, moves: seq<Move>, i: nat)
    requires WellFormed(prog) && IsParallelRun(prog, threads, m, xs, moves) && CallsChained(xs, moves) && i < |xs|
    ensures ExecInv(prog, m, xs[i])
  {
    hide MoveChained, ExecInv, Allowed, DoMove, Init, WellFormed;
    if i == 0 {
      InitExec(prog, threads, m);
    } else {
      RunExec(prog, threads, m, xs, moves, i - 1);
      assert Allowed(prog, xs[i - 1], moves[i - 1]) && xs[i] == DoMove(prog, xs[i - 1], moves[i - 1]);
      assert MoveChained(xs[i - 1], moves[i - 1]);
      MoveKeeps(prog, m, xs[i - 1], moves[i - 1]);
    }
  }

  lemma MoveKeeps(prog: seq<Body>, m: Store, x: Exec, mv: Move)
    requires ExecInv(prog, m, x) && WellFormed(prog) && Allowed(prog, x, mv) && MoveChained(x, mv)
    ensures ExecInv(prog, m, DoMove(prog, x, mv))
  {
    hide MachineInv, WF, Chained, HistsOk, StoreOk;
    if mv.Sched? {
      if mv.a == Finish { FinishHasTask(x.s); }
      MachineStep(x.s, mv.a);
      if mv.a.Spawn? { SpawnKeepsExec(prog, m, x, mv.a.args); } else { SchedKeepsExec(prog, m, x, mv.a); }
    } else {
      AccessKeeps(prog, m, x, mv.k);
    }
  }

  /** Every body, at every moment, has read what it reads in the serial run. */
  lemma {:induction false} ReadsAreSerial(prog: seq<Body>, threads: nat, m: Store, xs: seq<Exec>, moves: seq<Move>, i: nat, k: nat)
    requires WellFormed(prog) && IsParallelRun(prog, threads, m, xs, moves) && CallsChained(xs, moves)
    requires i < |xs| && k < |xs[i].hists|
    ensures k < |prog| && xs[i].hists[k] == After(prog[k], SerialStore(prog, m, k), |xs[i].hists[k]|).0
  {
    RunExec(prog, threads, m, xs, moves, i);
    hide MachineInv, StoreOk, After, SerialStore;
    assert HistOk(prog, m, xs[i], k);
  }

  lemma {:induction false} FinalStore(prog: seq<Body>, m: Store, x: Exec, b: int)
    requires ExecInv(prog, m, x) && WellFormed(prog)
    requires |x.s.tasks| == |prog| && forall t <- x.s.tasks :: Released(t)
    ensures x.store(b) == SerialStore(prog, m, |prog|)(b)
  {
    MachineStarts(x.s);
    assert forall i :: 0 <= i < |x.s.tasks| ==> Released(x.s.tasks[i]);
    hide MachineInv, After, SerialStore, WellFormed, Mixed, Modifies, StartsOk;
    MixedEarlier(prog, m, x, |prog|, b);
  }

  lemma {:induction false} FinalHist(prog: seq<Body>, m: Store, x: Exec, k: nat)
    requires ExecInv(prog, m, x)
    requires |x.s.tasks| == |prog| && k < |prog| && forall t <- x.s.tasks :: Released(t)
    ensures k < |x.hists| && x.hists[k] == Full(prog[k], SerialStore(prog, m, k)).0
  {
    hide MachineInv, After, SerialStore, StoreOk, Full;
    assert Released(x.s.tasks[k]);
    FinishedTask(prog, m, x, k);
  }

  lemma SameLength(prog: seq<Body>, m: Store, x: Exec)
    requires ExecInv(prog, m, x)
    ensures |x.hists| == |x.s.tasks|
  {
    hide MachineInv, After, SerialStore, StoreOk, HistsOk;
  }

  /** When all tasks have been spawned and released, the store is the serial one and
      every body has seen what it sees in the serial run. */
  lemma {:induction false} SerialEquivalence(prog: seq<Body>, threads: nat, m: Store, xs: seq<Exec>, moves: seq<Move>)
    requires WellFormed(prog) && IsParallelRun(prog, threads, m, xs, moves) && CallsChained(xs, moves)
    requires |xs[|xs| - 1].s.tasks| == |prog| && forall t <- xs[|xs| - 1].s.tasks :: Released(t)
    ensures forall b :: xs[|xs| - 1].store(b) == SerialStore(prog, m, |prog|)(b)
    ensures |xs[|xs| - 1].hists| == |prog|
    ensures forall k :: 0 <= k < |prog| ==> xs[|xs| - 1].hists[k] == Full(prog[k], SerialStore(prog, m, k)).0
  {
    var x := xs[|xs| - 1];
    RunExec(prog, threads, m, xs, moves, |xs| - 1);
    hide *;
    SameLength(prog, m, x);
    forall b ensures x.store(b) == SerialStore(prog, m, |prog|)(b) { FinalStore(prog, m, x, b); }
    forall k | 0 <= k < |prog| ensures x.hists[k] == Full(prog[k], SerialStore(prog, m, k)).0 { FinalHist(prog, m, x, k); }
  }

  // ---- argument lists whose reads are safe ----------------------------------

  /** If this move replaces a list of readers, it drops none that must still be waited for. */
  ghost predicate MoveKeepsReaders(x: Exec, mv: Move) { mv == Sched(Analyse) ==> ReadersKept(x.s) }

  /** The WAR hypothesis, step by step. */
  ghost predicate LiveReadersKept(xs: seq<Exec>, moves: seq<Move>) {
    forall i :: 0 <= i < |moves| && i < |xs| ==> MoveKeepsReaders(xs[i], moves[i])
  }

  ghost predicate RawSafeBodies(prog: seq<Body>) {
    forall k :: 0 <= k < |prog| ==> RawSafeArgs(prog[k].args)
  }

  ghost predicate RawSafeInv(s: State) {
    WF(s) && CountInv(s) && OrderInv(s, true) && FragmentInv(s)
  }

  lemma RawSafeStep(s: State, a: Step)
    requires RawSafeInv(s) && Enabled(s, a) && (a.Spawn? ==> RawSafeArgs(a.args)) && (a == Analyse ==> ReadersKept(s))
    ensures RawSafeInv(Do(s, a))
  {
    hide OrderInv, FragmentInv, CountInv, WF, GoodStep, ReadersKept, RawSafe;
    FragmentGood(s, a, true);
    StepKeeps(s, a);
    StepOrder(s, a, true);
    StepFragment(s, a, true);
  }

  /** At the end of an analysis all accesses of all tasks have been analysed. */
  lemma {:induction false} FinishChained(s: State)
    requires RawSafeInv(s) && Enabled(s, Finish)
    ensures s.tasks != [] && Chained(s, |s.tasks| - 1)
  {
    assert ConflictsOk(s, true);
    FinishSeesAll(s);
    hide WF, CountInv, OrderInv, FragmentInv, Safe, Hits, Stores;
    var t := |s.tasks| - 1;
    forall i: nat, b: int ensures Waits(s, i, t, b) {
      assert Ordered(s, true, i, t, b);
    }
  }

  lemma FinishSeesAll(s: State)
    requires WF(s) && Enabled(s, Finish)
    ensures s.tasks != [] && forall i: nat :: i < |s.tasks| ==> Analysed(s, i) == |s.tasks[i].acc|
  {
    hide WF;
  }

  lemma RawSafeMove(prog: seq<Body>, x: Exec, mv: Move)
    requires RawSafeInv(x.s) && RawSafeBodies(prog) && Allowed(prog, x, mv) && MoveKeepsReaders(x, mv)
    ensures RawSafeInv(DoMove(prog, x, mv).s) && MoveChained(x, mv)
  {
    hide RawSafeInv, WF, ReadersKept, Chained;
    if mv.Sched? {
      assert RawSafeInv(x.s) ==> WF(x.s);
      assert mv.a.Spawn? ==> RawSafeArgs(mv.a.args);
      RawSafeStep(x.s, mv.a);
      if mv.a == Finish { FinishChained(x.s); }
    }
  }

  lemma RawSafeInit(threads: nat)
    ensures RawSafeInv(Init(threads))
  {
  }

  lemma {:induction false} RawSafeRun(prog: seq<Body>, threads: nat, m: Store, xs: seq<Exec>, moves: seq<Move>, i: nat)
    requires RawSafeBodies(prog) && IsParallelRun(prog, threads, m, xs, moves) && LiveReadersKept(xs, moves) && i < |xs|
    ensures RawSafeInv(xs[i].s) && (i < |moves| ==> MoveChained(xs[i], moves[i]))
  {
    hide MoveKeepsReaders, MoveChained, RawSafeInv, Allowed, DoMove, Init, RawSafeBodies;
    if i == 0 {
      RawSafeInit(threads);
    } else {
      RawSafeRun(prog, threads, m, xs, moves, i - 1);
      assert Allowed(prog, xs[i - 1], moves[i - 1]) && xs[i] == DoMove(prog, xs[i - 1], moves[i - 1]);
      assert MoveKeepsReaders(xs[i - 1], moves[i - 1]);
      RawSafeMove(prog, xs[i - 1], moves[i - 1]);
    }
    if i < |moves| {
      assert Allowed(prog, xs[i], moves[i]) && MoveKeepsReaders(xs[i], moves[i]);
      RawSafeMove(prog, xs[i], moves[i]);
    }
  }

  /** With RawSafe argument lists, and readers dropped only when they need not be waited
      for, every call is chained; so those runs are serial too. */
  lemma {:induction false} RawSafeChains(prog: seq<Body>, threads: nat, m: Store, xs: seq<Exec>, moves: seq<Move>)
    requires RawSafeBodies(prog) && IsParallelRun(prog, threads, m, xs, moves) && LiveReadersKept(xs, moves)
    ensures CallsChained(xs, moves)
  {
    hide MoveChained, RawSafeInv;
    forall i | 0 <= i < |moves| && i < |xs| ensures MoveChained(xs[i], moves[i]) {
      RawSafeRun(prog, threads, m, xs, moves, i);
    }
  }

  lemma {:induction false} RawSafeSerial(prog: seq<Body>, threads: nat, m: Store, xs: seq<Exec>, moves: seq<Move>)
    requires WellFormed(prog) && RawSafeBodies(prog) && IsParallelRun(prog, threads, m, xs, moves) && LiveReadersKept(xs, moves)
    requires |xs[|xs| - 1].s.tasks| == |prog| && forall t <- xs[|xs| - 1].s.tasks :: Released(t)
    ensures forall b :: xs[|xs| - 1].store(b) == SerialStore(prog, m, |prog|)(b)
    ensures |xs[|xs| - 1].hists| == |prog|
    ensures forall k :: 0 <= k < |prog| ==> xs[|xs| - 1].hists[k] == Full(prog[k], SerialStore(prog, m, k)).0
  {
    hide WellFormed, RawSafeBodies, IsParallelRun, LiveReadersKept, CallsChained, Full, SerialStore;
    assert |xs| > 0 by { RunNotEmpty(prog, threads, m, xs, moves); }
    RawSafeChains(prog, threads, m, xs, moves);
    SerialEquivalence(prog, threads, m, xs, moves);
  }

  lemma RunNotEmpty(prog: seq<Body>, threads: nat, m: Store, xs: seq<Exec>, moves: seq<Move>)
    requires IsParallelRun(prog, threads, m, xs, moves)
    ensures |xs| > 0
  {
  }
}
