/** The tasks spawned by one parent, as a transition system with one step per
    shared access (src/deps.c, src/runtime.c).

    The parent thread analyses one task at a time; every other access may come
    from any thread, at any moment.  A task that is being released is an agent of
    its own: it closes its `to_notify` stack, pops it and fires the entries.  The
    stack operations are single steps here (module ClosableStack justifies that),
    and so are the deque operations (module Deque). */
module DepMachine {

  datatype Option<+T> = None | Some(value: T)

  datatype Status = Creating | Created | Scheduled | Executed | Releasing | Complete

  function Rank(st: Status): (r: nat) {
    match st
    case Creating => 0
    case Created => 1
    case Scheduled => 2
    case Executed => 3
    case Releasing => 4
    case Complete => 5
  }

  /** One task argument: SAFE arguments are not analysed; the others cover the
      blocks lo..hi, both included, and hi < lo covers none. */
  datatype Arg = Arg(safe: bool, out: bool, lo: int, hi: int)

  /** One (argument, block) pair in the order in which the analysis visits it. */
  datatype Access = Access(arg: nat, block: int, out: bool)

  /** Metadata_element: `out` is its type, `owner` and `readers` are tasks, `dep`
      is dependent_metadata. */
  datatype Elem = Elem(out: bool, owner: nat, readers: seq<nat>, dep: Option<nat>)

  /** What a releasing task has taken off its stack and not dealt with yet. */
  datatype Hand =
    | Empty
    | Popped(x: nat)          // popped, `fired` not incremented yet
    | Counted(x: nat, f: nat) // incremented to f, waiting for CREATED
    | Seen(x: nat, f: nat)    // the wait is over, nothing tested yet
    | Claim(x: nat, f: nat)   // tests passed, about to compare-and-swap
    | Put(x: nat)             // won the swap, about to enqueue

  datatype Task = Task(
    acc: seq<Access>, status: Status, waitfor: nat, fired: nat,
    closed: bool, notify: seq<nat>, pending: seq<nat>, hand: Hand,
    last: Option<nat>, runs: nat)

  /** Where the parent thread is inside tpc_call for the newest task.  `p` indexes
      the accesses and `n` is the local waitfor counter. */
  datatype Pc =
    | Idle
    | Scan(p: nat, n: nat)
    | Walk(p: nat, n: nat, rest: seq<nat>) // readers still to be visited
    | Join(p: nat, n: nat)                 // became a reader, push still to come
    | Publish                              // waitfor stored, CREATED still to be stored
    | Claiming                             // schedule_task: about to compare-and-swap
    | Putting                              // schedule_task: about to enqueue

  /** `table` is the parent's look-up table; `base` is the element made for the
      first argument of the newest task. */
  datatype State = State(
    tasks: seq<Task>, table: map<int, nat>, elems: seq<Elem>,
    pc: Pc, base: nat, deques: seq<seq<nat>>)

  datatype Step =
    | Spawn(args: seq<Arg>)
    | Analyse | Reader | JoinPush | Finish | Publication | ParentClaim | ParentPut(d: nat)
    | PopFront(d: nat) | Steal(d: nat) | End(k: nat)
    | Release(k: nat) | Lock(k: nat) | Pop(k: nat) | Fire(k: nat)
    | Spin(k: nat) | Test(k: nat) | Swap(k: nat) | Enqueue(k: nat, d: nat) | Retire(k: nat)

  const CAPACITY := 128

  // ---- argument lists -------------------------------------------------------

  function Blocks(arg: nat, lo: int, hi: int, out: bool): seq<Access>
    decreases hi - lo
  {
    if hi < lo then [] else [Access(arg, lo, out)] + Blocks(arg, lo + 1, hi, out)
  }

  function ArgAccesses(i: nat, a: Arg): seq<Access> {
    if a.safe then [] else Blocks(i, a.lo, a.hi, a.out)
  }

  /** All the accesses of the first n arguments. */
  function Accesses(args: seq<Arg>, n: nat): seq<Access>
    requires n <= |args|
  {
    if n == 0 then [] else Accesses(args, n - 1) + ArgAccesses(n - 1, args[n - 1])
  }

  function NewElems(args: seq<Arg>, t: nat): (r: seq<Elem>)
    ensures |r| == |args|
  {
    seq(|args|, i requires 0 <= i < |args| =>
      Elem(args[i].out, t, if args[i].out then [] else [t], None))
  }

  // ---- well-formed states ---------------------------------------------------

  function HandTask(h: Hand): Option<nat> {
    match h
    case Empty => None
    case Popped(x) => Some(x)
    case Counted(x, _) => Some(x)
    case Seen(x, _) => Some(x)
    case Claim(x, _) => Some(x)
    case Put(x) => Some(x)
  }

  /** Every entry of q lies in lo..hi-1. */
  ghost predicate Within(q: seq<nat>, lo: nat, hi: nat) {
    forall i :: 0 <= i < |q| ==> lo <= q[i] < hi
  }

  ghost predicate TaskOk(t: Task, k: nat, n: nat) {
    && Within(t.notify, k + 1, n)
    && Within(t.pending, k + 1, n)
    && (HandTask(t.hand).Some? ==> k < HandTask(t.hand).value < n)
    && (t.last.Some? ==> t.last.value < k)
  }

  ghost predicate TasksOk(ts: seq<Task>) {
    forall k :: 0 <= k < |ts| ==> TaskOk(ts[k], k, |ts|)
  }

  ghost predicate ElemOk(e: Elem, es: seq<Elem>, n: nat) {
    && e.owner < n
    && Within(e.readers, e.owner, n)
    && (!e.out ==> e.owner in e.readers)
    && (e.dep.Some? ==> e.dep.value < |es| && es[e.dep.value].out && es[e.dep.value].owner < e.owner)
  }

  ghost predicate ElemsOk(es: seq<Elem>, n: nat) {
    forall i :: 0 <= i < |es| ==> ElemOk(es[i], es, n)
  }

  ghost predicate TableOk(table: map<int, nat>, m: nat) {
    forall b :: b in table ==> table[b] < m
  }

  ghost predicate DequesOk(dq: seq<seq<nat>>, n: nat) {
    forall d :: 0 <= d < |dq| ==> Within(dq[d], 0, n)
  }

  predicate Analysing(pc: Pc) {
    pc.Scan? || pc.Walk? || pc.Join?
  }

  /** The elements made for the accesses of the newest task t. */
  ghost predicate MineOk(acc: seq<Access>, es: seq<Elem>, base: nat, t: nat) {
    forall q :: 0 <= q < |acc| ==>
      && base + acc[q].arg < |es|
      && es[base + acc[q].arg].owner == t
      && es[base + acc[q].arg].out == acc[q].out
  }

  ghost predicate PcOk(pc: Pc, ts: seq<Task>, table: map<int, nat>, es: seq<Elem>, base: nat) {
    && (pc != Idle ==> ts != [])
    && (Analysing(pc) ==>
          var acc := ts[|ts| - 1].acc;
          && pc.p <= |acc|
          && MineOk(acc, es, base, |ts| - 1)
          && (!pc.Scan? ==> pc.p < |acc|)
          && (pc.Walk? ==> Within(pc.rest, 0, |ts|))
          && (pc.Join? ==> acc[pc.p].block in table && table[acc[pc.p].block] < |es|
                           && !es[table[acc[pc.p].block]].out))
  }

  ghost predicate WF(s: State) {
    && TasksOk(s.tasks)
    && ElemsOk(s.elems, |s.tasks|)
    && TableOk(s.table, |s.elems|)
    && DequesOk(s.deques, |s.tasks|)
    && PcOk(s.pc, s.tasks, s.table, s.elems, s.base)
  }

  ghost function Init(threads: nat): State {
    State([], map[], [], Idle, 0, seq(threads, _ => []))
  }

  // ---- the steps ------------------------------------------------------------

  /** stack_push of the newest task onto task w's open stack; deps_last follows. */
  function PushOn(s: State, w: nat): State
    requires w < |s.tasks|
  {
    var t := |s.tasks| - 1;
    var ts := s.tasks[w := s.tasks[w].(notify := [t] + s.tasks[w].notify)];
    s.(tasks := ts[t := ts[t].(last := Some(w))])
  }

  /** The guard in front of every push: `seen` is the task the code compares with,
      w the task whose stack is pushed to.  They differ in the RAR branch only. */
  predicate Skips(s: State, seen: nat, w: nat)
    requires s.tasks != [] && w < |s.tasks|
  {
    var t := |s.tasks| - 1;
    t == seen || s.tasks[t].last == Some(seen) || s.tasks[w].closed
  }

  function Attempt(s: State, seen: nat, w: nat): State
    requires s.tasks != [] && w < |s.tasks|
  {
    if Skips(s, seen, w) then s else PushOn(s, w)
  }

  function Waits(s: State, seen: nat, w: nat, n: nat): nat
    requires s.tasks != [] && w < |s.tasks|
  {
    if Skips(s, seen, w) then n else n + 1
  }

  function SetTask(s: State, k: nat, t: Task): State
    requires k < |s.tasks|
  {
    s.(tasks := s.tasks[k := t])
  }

  /** Does the newest task become a reader of the element in force? */
  predicate OwnerAlive(s: State, e: nat)
    requires e < |s.elems| && s.elems[e].owner < |s.tasks|
  {
    Rank(s.tasks[s.elems[e].owner].status) <= Rank(Executed)
  }

  ghost predicate CanAnalyse(s: State, a: Access) {
    && s.pc.Scan? && s.tasks != [] && s.base + a.arg < |s.elems|
    && (a.block in s.table ==>
          s.table[a.block] < |s.elems| && s.elems[s.table[a.block]].owner < |s.tasks|)
  }

  function AnalyseOut(s: State, a: Access): State
    requires CanAnalyse(s, a)
  {
    var s1 := s.(table := s.table[a.block := s.base + a.arg]);
    if a.block !in s.table then s1.(pc := Scan(s.pc.p + 1, s.pc.n))
    else
      var e := s.elems[s.table[a.block]];
      if e.out then // WAW
        Attempt(s1, e.owner, e.owner).(pc := Scan(s.pc.p + 1, Waits(s, e.owner, e.owner, s.pc.n)))
      else          // WAR
        s1.(pc := Walk(s.pc.p, s.pc.n, e.readers))
  }

  function AnalyseIn(s: State, a: Access): State
    requires CanAnalyse(s, a)
  {
    var mine := s.base + a.arg;
    var s1 := s.(table := s.table[a.block := mine]);
    if a.block !in s.table then s1.(pc := Scan(s.pc.p + 1, s.pc.n))
    else
      var m := s.table[a.block];
      var e := s.elems[m];
      if e.out then // RAW
        if Skips(s, e.owner, e.owner) then s1.(pc := Scan(s.pc.p + 1, s.pc.n))
        else PushOn(s1, e.owner).(
               pc := Scan(s.pc.p + 1, s.pc.n + 1),
               elems := s.elems[mine := s.elems[mine].(dep := Some(m))])
      else if OwnerAlive(s, m) then // RAR, join the readers
        s.(elems := s.elems[m := e.(readers := [|s.tasks| - 1] + e.readers)],
           pc := Join(s.pc.p, s.pc.n))
      else          // RAR, the first reader is being released
        s1.(pc := Scan(s.pc.p + 1, s.pc.n))
  }

  /** The element the newest task has just joined. */
  function Joined(s: State): Elem
    requires WF(s) && s.pc.Join?
  {
    s.elems[s.table[s.tasks[|s.tasks| - 1].acc[s.pc.p].block]]
  }

  function DoJoinPush(s: State): State
    requires WF(s) && s.pc.Join?
  {
    var e := Joined(s);
    if e.dep.Some? then
      var w := s.elems[e.dep.value].owner;
      Attempt(s, e.owner, w).(pc := Scan(s.pc.p + 1, Waits(s, e.owner, w, s.pc.n)))
    else s.(pc := Scan(s.pc.p + 1, s.pc.n))
  }

  /** enqueue on deque d, or the inline execution taken when it is full. */
  function Deliver(s: State, x: nat, d: nat): State
    requires x < |s.tasks| && d < |s.deques|
  {
    if |s.deques[d]| < CAPACITY then s.(deques := s.deques[d := s.deques[d] + [x]])
    else SetTask(s, x, s.tasks[x].(runs := s.tasks[x].runs + 1))
  }

  function Start(s: State, x: nat, d: nat, rest: seq<nat>): State
    requires x < |s.tasks| && d < |s.deques|
  {
    SetTask(s.(deques := s.deques[d := rest]), x, s.tasks[x].(runs := s.tasks[x].runs + 1))
  }

  predicate Enabled(s: State, a: Step) {
    match a
    case Spawn(_) => s.pc.Idle?
    case Analyse => s.pc.Scan? && s.tasks != [] && s.pc.p < |s.tasks[|s.tasks| - 1].acc|
    case Reader => s.pc.Walk?
    case JoinPush => s.pc.Join?
    case Finish => s.pc.Scan? && s.tasks != [] && s.pc.p == |s.tasks[|s.tasks| - 1].acc|
    case Publication => s.pc.Publish?
    case ParentClaim => s.pc.Claiming?
    case ParentPut(d) => s.pc.Putting? && d < |s.deques|
    case PopFront(d) => d < |s.deques| && s.deques[d] != []
    case Steal(d) => d < |s.deques| && s.deques[d] != []
    case End(k) => k < |s.tasks| && s.tasks[k].runs > 0 && s.tasks[k].status == Scheduled
    case Release(k) => k < |s.tasks| && s.tasks[k].status == Executed
    case Lock(k) => k < |s.tasks| && s.tasks[k].status == Releasing && !s.tasks[k].closed
    case Pop(k) => k < |s.tasks| && s.tasks[k].closed && s.tasks[k].hand == Empty && s.tasks[k].pending != []
    case Fire(k) => k < |s.tasks| && s.tasks[k].hand.Popped?
    case Spin(k) => k < |s.tasks| && s.tasks[k].hand.Counted? && s.tasks[k].hand.x < |s.tasks|
                    && s.tasks[s.tasks[k].hand.x].status != Creating
    case Test(k) => k < |s.tasks| && s.tasks[k].hand.Seen?
    case Swap(k) => k < |s.tasks| && s.tasks[k].hand.Claim?
    case Enqueue(k, d) => k < |s.tasks| && s.tasks[k].hand.Put? && d < |s.deques|
    case Retire(k) => k < |s.tasks| && s.tasks[k].closed && s.tasks[k].status == Releasing
                      && s.tasks[k].hand == Empty && s.tasks[k].pending == []
  }

  /** The newest task, as tpc_call hands it to the analysis. */
  function NewTask(args: seq<Arg>): Task {
    Task(Accesses(args, |args|), Creating, 0, 0, false, [], [], Empty, None, 0)
  }

  function DoReader(s: State): State
    requires s.pc.Walk? && s.tasks != [] && Within(s.pc.rest, 0, |s.tasks|)
  {
    if s.pc.rest == [] then s.(pc := Scan(s.pc.p + 1, s.pc.n))
    else
      var r := s.pc.rest[0];
      Attempt(s, r, r).(pc := Walk(s.pc.p, Waits(s, r, r, s.pc.n), s.pc.rest[1..]))
  }

  /** The end of create_dependencies: without pushes the task is CREATED at once,
      otherwise `waitfor` is stored first. */
  function DoFinish(s: State): State
    requires s.pc.Scan? && s.tasks != []
  {
    var t := |s.tasks| - 1;
    if s.pc.n == 0 then SetTask(s.(pc := Claiming), t, s.tasks[t].(status := Created))
    else SetTask(s.(pc := Publish), t, s.tasks[t].(waitfor := s.pc.n))
  }

  function DoPublication(s: State): State
    requires s.tasks != []
  {
    var t := |s.tasks| - 1;
    SetTask(s.(pc := Idle), t, s.tasks[t].(status := Created))
  }

  function DoParentClaim(s: State): State
    requires s.tasks != []
  {
    var t := |s.tasks| - 1;
    if s.tasks[t].status == Created then SetTask(s.(pc := Putting), t, s.tasks[t].(status := Scheduled))
    else s.(pc := Idle)
  }

  function DoLock(s: State, k: nat): State
    requires k < |s.tasks|
  {
    var t := s.tasks[k]; SetTask(s, k, t.(closed := true, pending := t.notify, notify := []))
  }

  function DoPop(s: State, k: nat): State
    requires k < |s.tasks| && s.tasks[k].pending != []
  {
    var t := s.tasks[k]; SetTask(s, k, t.(pending := t.pending[1..], hand := Popped(t.pending[0])))
  }

  function DoFire(s: State, k: nat): State
    requires k < |s.tasks| && s.tasks[k].hand.Popped? && s.tasks[k].hand.x < |s.tasks|
  {
    var x := s.tasks[k].hand.x;
    var f := s.tasks[x].fired + 1;
    SetTask(SetTask(s, x, s.tasks[x].(fired := f)), k, s.tasks[k].(hand := Counted(x, f)))
  }

  function DoSpin(s: State, k: nat): State
    requires k < |s.tasks| && s.tasks[k].hand.Counted?
  {
    var h := s.tasks[k].hand; SetTask(s, k, s.tasks[k].(hand := Seen(h.x, h.f)))
  }

  function DoTest(s: State, k: nat): State
    requires k < |s.tasks| && s.tasks[k].hand.Seen? && s.tasks[k].hand.x < |s.tasks|
  {
    var h := s.tasks[k].hand;
    var x := s.tasks[h.x];
    SetTask(s, k, s.tasks[k].(hand :=
      if x.status == Created && x.waitfor == h.f then Claim(h.x, h.f) else Empty))
  }

  function DoSwap(s: State, k: nat): State
    requires k < |s.tasks| && s.tasks[k].hand.Claim? && s.tasks[k].hand.x < |s.tasks|
  {
    var x := s.tasks[k].hand.x;
    if s.tasks[x].status == Created
    then SetTask(SetTask(s, x, s.tasks[x].(status := Scheduled)), k, s.tasks[k].(hand := Put(x)))
    else SetTask(s, k, s.tasks[k].(hand := Empty))
  }

  function DoEnqueue(s: State, k: nat, d: nat): State
    requires k < |s.tasks| && s.tasks[k].hand.Put? && s.tasks[k].hand.x < |s.tasks| && d < |s.deques|
  {
    Deliver(SetTask(s, k, s.tasks[k].(hand := Empty)), s.tasks[k].hand.x, d)
  }

  function DoParent(s: State, a: Step): State
    requires WF(s) && Enabled(s, a) && ByParent(a)
  {
    match a
    case Spawn(args) =>
      s.(tasks := s.tasks + [NewTask(args)],
         elems := s.elems + NewElems(args, |s.tasks|), base := |s.elems|, pc := Scan(0, 0))
    case Analyse =>
      var c := s.tasks[|s.tasks| - 1].acc[s.pc.p];
      if c.out then AnalyseOut(s, c) else AnalyseIn(s, c)
    case Reader => DoReader(s)
    case JoinPush => DoJoinPush(s)
    case Finish => DoFinish(s)
    case Publication => DoPublication(s)
    case ParentClaim => DoParentClaim(s)
    case ParentPut(d) => Deliver(s.(pc := Idle), |s.tasks| - 1, d)
  }

  function DoAgent(s: State, a: Step): State
    requires WF(s) && Enabled(s, a) && !ByParent(a)
  {
    match a
    case PopFront(d) =>
      var q := s.deques[d]; Start(s, q[|q| - 1], d, q[..|q| - 1])
    case Steal(d) =>
      var q := s.deques[d]; Start(s, q[0], d, q[1..])
    case End(k) => SetTask(s, k, s.tasks[k].(status := Executed))
    case Release(k) => SetTask(s, k, s.tasks[k].(status := Releasing))
    case Lock(k) => DoLock(s, k)
    case Pop(k) => DoPop(s, k)
    case Fire(k) => DoFire(s, k)
    case Spin(k) => DoSpin(s, k)
    case Test(k) => DoTest(s, k)
    case Swap(k) => DoSwap(s, k)
    case Enqueue(k, d) => DoEnqueue(s, k, d)
    case Retire(k) => SetTask(s, k, s.tasks[k].(status := Complete))
  }

  predicate ByParent(a: Step) {
    a.Spawn? || a.Analyse? || a.Reader? || a.JoinPush? || a.Finish?
    || a.Publication? || a.ParentClaim? || a.ParentPut?
  }

  function Do(s: State, a: Step): State
    requires WF(s) && Enabled(s, a)
  {
    if ByParent(a) then DoParent(s, a) else DoAgent(s, a)
  }

  ghost predicate Next(s: State, a: Step, s': State) {
    WF(s) && Enabled(s, a) && s' == Do(s, a)
  }

  /** tr is the sequence of states visited by taking the steps, from the start. */
  ghost predicate IsRun(threads: nat, tr: seq<State>, steps: seq<Step>) {
    && |tr| == |steps| + 1
    && tr[0] == Init(threads)
    && forall i :: 0 <= i < |steps| ==> Next(tr[i], steps[i], tr[i + 1])
  }

  // ---- well-formedness is kept ----------------------------------------------

  lemma TasksUpdate(ts: seq<Task>, k: nat, t: Task)
    requires TasksOk(ts) && k < |ts| && TaskOk(t, k, |ts|)
    ensures TasksOk(ts[k := t])
  {
  }

  lemma ElemsUpdate(es: seq<Elem>, n: nat, m: nat, e: Elem)
    requires ElemsOk(es, n) && m < |es| && ElemOk(e, es, n) && e.owner == es[m].owner && e.out == es[m].out
    ensures ElemsOk(es[m := e], n)
  {
    var es' := es[m := e];
    forall i | 0 <= i < |es'| ensures ElemOk(es'[i], es', n) { assert ElemOk(es[i], es, n); }
  }

  lemma {:induction false} BlocksKind(arg: nat, lo: int, hi: int, out: bool)
    ensures forall q :: 0 <= q < |Blocks(arg, lo, hi, out)| ==>
              Blocks(arg, lo, hi, out)[q].arg == arg && Blocks(arg, lo, hi, out)[q].out == out
    decreases hi - lo
  {
    if lo <= hi { BlocksKind(arg, lo + 1, hi, out); }
  }

  lemma {:induction false} AccessesKind(args: seq<Arg>, n: nat)
    requires n <= |args|
    ensures forall q :: 0 <= q < |Accesses(args, n)| ==>
              Accesses(args, n)[q].arg < n && Accesses(args, n)[q].out == args[Accesses(args, n)[q].arg].out
  {
    if n > 0 {
      AccessesKind(args, n - 1);
      BlocksKind(n - 1, args[n - 1].lo, args[n - 1].hi, args[n - 1].out);
    }
  }

  lemma SpawnWF(s: State, args: seq<Arg>)
    requires WF(s) && s.pc.Idle?
    ensures WF(Do(s, Spawn(args)))
  {
    var s' := Do(s, Spawn(args));
    forall k | 0 <= k < |s'.tasks| ensures TaskOk(s'.tasks[k], k, |s'.tasks|) {
      if k < |s.tasks| { assert TaskOk(s.tasks[k], k, |s.tasks|); }
    }
    forall i | 0 <= i < |s'.elems| ensures ElemOk(s'.elems[i], s'.elems, |s'.tasks|) {
      if i < |s.elems| { assert ElemOk(s.elems[i], s.elems, |s.tasks|); }
    }
    forall d | 0 <= d < |s'.deques| ensures Within(s'.deques[d], 0, |s'.tasks|) {
      assert Within(s.deques[d], 0, |s.tasks|);
    }
    AccessesKind(args, |args|);
  }

  lemma PushOnWF(ts: seq<Task>, s: State, w: nat)
    requires s.tasks == ts && TasksOk(ts) && ts != [] && w < |ts| - 1
    ensures TasksOk(PushOn(s, w).tasks) && |PushOn(s, w).tasks| == |ts|
    ensures PushOn(s, w).tasks[|ts| - 1].acc == ts[|ts| - 1].acc
  {
    var t := |ts| - 1;
    var tw := ts[w].(notify := [t] + ts[w].notify);
    TasksUpdate(ts, w, tw);
    TasksUpdate(ts[w := tw], t, ts[t].(last := Some(w)));
  }

  lemma AttemptWF(s: State, seen: nat, w: nat)
    requires TasksOk(s.tasks) && s.tasks != [] && w < |s.tasks| && (seen == w || w < |s.tasks| - 1)
    ensures var s' := Attempt(s, seen, w);
      TasksOk(s'.tasks) && |s'.tasks| == |s.tasks| && s' == s.(tasks := s'.tasks)
      && s'.tasks[|s.tasks| - 1].acc == s.tasks[|s.tasks| - 1].acc
  {
    if !Skips(s, seen, w) { PushOnWF(s.tasks, s, w); }
  }

  /** A state whose lists and elements are sound, and that is back at Scan. */
  lemma ScanWF(s: State, s': State, b: int, p: nat)
    requires WF(s) && s.pc.Scan? && |s'.tasks| == |s.tasks| && s.tasks != []
    requires TasksOk(s'.tasks) && ElemsOk(s'.elems, |s.tasks|) && |s'.elems| == |s.elems|
    requires forall i :: 0 <= i < |s.elems| ==> s'.elems[i].owner == s.elems[i].owner && s'.elems[i].out == s.elems[i].out
    requires b in s'.table && s'.table[b] < |s.elems| && s'.table == s.table[b := s'.table[b]]
    requires s'.deques == s.deques && s'.base == s.base
    requires s'.tasks[|s.tasks| - 1].acc == s.tasks[|s.tasks| - 1].acc
    requires s'.pc.Scan? && s'.pc.p == p <= |s.tasks[|s.tasks| - 1].acc|
    ensures WF(s')
  {
  }

  lemma AnalyseOutWF(s: State, a: Access)
    requires WF(s) && Enabled(s, Analyse) && a == s.tasks[|s.tasks| - 1].acc[s.pc.p] && a.out
    ensures WF(AnalyseOut(s, a))
  {
    if a.block in s.table && s.elems[s.table[a.block]].out {
      var s1 := s.(table := s.table[a.block := s.base + a.arg]);
      var e := s.elems[s.table[a.block]];
      AttemptWF(s1, e.owner, e.owner);
      ScanWF(s, AnalyseOut(s, a), a.block, s.pc.p + 1);
    } else if a.block in s.table {
      assert ElemOk(s.elems[s.table[a.block]], s.elems, |s.tasks|);
    } else {
      ScanWF(s, AnalyseOut(s, a), a.block, s.pc.p + 1);
    }
  }

  lemma RawWF(s: State, a: Access)
    requires WF(s) && Enabled(s, Analyse) && a == s.tasks[|s.tasks| - 1].acc[s.pc.p] && !a.out
    requires a.block in s.table && s.elems[s.table[a.block]].out
    ensures WF(AnalyseIn(s, a))
  {
    var w := s.elems[s.table[a.block]].owner;
    RawElems(s, a);
    AttemptWF(s.(table := s.table[a.block := s.base + a.arg]), w, w);
    RawShape(s, a);
    hide *;
    ScanWF(s, AnalyseIn(s, a), a.block, s.pc.p + 1);
  }

  /** The newest task's element remembers the writer only if the push was made. */
  lemma RawElems(s: State, a: Access)
    requires WF(s) && Enabled(s, Analyse) && a == s.tasks[|s.tasks| - 1].acc[s.pc.p] && !a.out
    requires a.block in s.table && s.elems[s.table[a.block]].out
    ensures ElemsOk(AnalyseIn(s, a).elems, |s.tasks|) && |AnalyseIn(s, a).elems| == |s.elems|
    ensures forall i :: 0 <= i < |s.elems| ==>
      AnalyseIn(s, a).elems[i].owner == s.elems[i].owner && AnalyseIn(s, a).elems[i].out == s.elems[i].out
  {
    var mine, m := s.base + a.arg, s.table[a.block];
    assert ElemOk(s.elems[m], s.elems, |s.tasks|) && ElemOk(s.elems[mine], s.elems, |s.tasks|);
    hide TasksOk, DequesOk, TableOk, ElemsOk;
    if !Skips(s, s.elems[m].owner, s.elems[m].owner) {
      ElemsUpdate(s.elems, |s.tasks|, mine, s.elems[mine].(dep := Some(m)));
    }
  }

  lemma RawShape(s: State, a: Access)
    requires CanAnalyse(s, a) && s.pc.Scan? && s.tasks != [] && !a.out && a.block in s.table && s.elems[s.table[a.block]].out
    ensures var s', w := AnalyseIn(s, a), s.elems[s.table[a.block]].owner;
      && s'.tasks == Attempt(s.(table := s.table[a.block := s.base + a.arg]), w, w).tasks
      && s'.table == s.table[a.block := s.base + a.arg] && s'.deques == s.deques && s'.base == s.base
      && s'.pc.Scan? && s'.pc.p == s.pc.p + 1
  {
  }

  lemma RarWF(s: State, a: Access)
    requires WF(s) && Enabled(s, Analyse) && a == s.tasks[|s.tasks| - 1].acc[s.pc.p] && !a.out
    requires a.block in s.table && !s.elems[s.table[a.block]].out
    ensures WF(AnalyseIn(s, a))
  {
    var m := s.table[a.block];
    var e := s.elems[m];
    assert ElemOk(e, s.elems, |s.tasks|);
    hide TasksOk, DequesOk;
    if OwnerAlive(s, m) {
      ElemsUpdate(s.elems, |s.tasks|, m, e.(readers := [|s.tasks| - 1] + e.readers));
    } else {
      ScanWF(s, AnalyseIn(s, a), a.block, s.pc.p + 1);
    }
  }

  lemma AnalyseInWF(s: State, a: Access)
    requires WF(s) && Enabled(s, Analyse) && a == s.tasks[|s.tasks| - 1].acc[s.pc.p] && !a.out
    ensures WF(AnalyseIn(s, a))
  {
    if a.block !in s.table {
      ScanWF(s, AnalyseIn(s, a), a.block, s.pc.p + 1);
    } else if s.elems[s.table[a.block]].out {
      RawWF(s, a);
    } else {
      RarWF(s, a);
    }
  }

  lemma WalkWF(s: State)
    requires WF(s) && (s.pc.Walk? || s.pc.Join?)
    ensures WF(Do(s, if s.pc.Walk? then Reader else JoinPush))
  {
    hide TasksOk, DequesOk;
    if s.pc.Walk? && s.pc.rest != [] {
      AttemptWF(s, s.pc.rest[0], s.pc.rest[0]);
    } else if s.pc.Join? && Joined(s).dep.Some? {
      var e := Joined(s);
      assert ElemOk(e, s.elems, |s.tasks|);
      AttemptWF(s, e.owner, s.elems[e.dep.value].owner);
    }
  }

  lemma ParentWF(s: State, a: Step)
    requires WF(s) && Enabled(s, a) && ByParent(a)
    ensures WF(Do(s, a))
  {
    if a.Spawn? {
      SpawnWF(s, a.args);
    } else if a.Analyse? {
      var c := s.tasks[|s.tasks| - 1].acc[s.pc.p];
      if c.out { AnalyseOutWF(s, c); } else { AnalyseInWF(s, c); }
    } else if a.Reader? || a.JoinPush? {
      WalkWF(s);
    } else {
      var t := |s.tasks| - 1;
      assert TaskOk(s.tasks[t], t, |s.tasks|);
      TasksUpdate(s.tasks, t, Do(s, a).tasks[t]);
    }
  }

  /** The steps that write one task only, or none. */
  lemma OneTaskWF(s: State, a: Step, k: nat)
    requires WF(s) && Enabled(s, a) && !ByParent(a) && k < |s.tasks|
    requires Do(s, a) == SetTask(s, k, Do(s, a).tasks[k]) && TaskOk(Do(s, a).tasks[k], k, |s.tasks|)
    requires Do(s, a).tasks[k].acc == s.tasks[k].acc
    ensures WF(Do(s, a))
  {
    TasksUpdate(s.tasks, k, Do(s, a).tasks[k]);
  }

  lemma DequesWF(s: State, a: Step, d: nat, x: nat)
    requires WF(s) && Enabled(s, a) && (a == PopFront(d) || a == Steal(d))
    requires x == if a.PopFront? then s.deques[d][|s.deques[d]| - 1] else s.deques[d][0]
    ensures WF(Do(s, a))
  {
    assert Within(s.deques[d], 0, |s.tasks|);
    assert TaskOk(s.tasks[x], x, |s.tasks|);
    var q := s.deques[d];
    var rest := if a.PopFront? then q[..|q| - 1] else q[1..];
    assert Within(rest, 0, |s.tasks|);
    assert Do(s, a) == Start(s, x, d, rest);
    StartWF(s, x, d, rest);
  }

  lemma StartWF(s: State, x: nat, d: nat, rest: seq<nat>)
    requires WF(s) && x < |s.tasks| && d < |s.deques| && Within(rest, 0, |s.tasks|)
    ensures WF(Start(s, x, d, rest))
  {
    var t := s.tasks[x].(runs := s.tasks[x].runs + 1);
    assert TaskOk(s.tasks[x], x, |s.tasks|);
    TasksUpdate(s.tasks, x, t);
    hide TasksOk, ElemsOk;
  }

  /** The steps that write task k and the task x in its hand. */
  lemma TwoTasksWF(s: State, k: nat, x: nat, tx: Task, tk: Task)
    requires WF(s) && k < |s.tasks| && x < |s.tasks|
    requires TaskOk(tx, x, |s.tasks|) && TaskOk(tk, k, |s.tasks|)
    requires tx.acc == s.tasks[x].acc && tk.acc == s.tasks[k].acc
    ensures WF(SetTask(SetTask(s, x, tx), k, tk))
  {
    TasksUpdate(s.tasks, x, tx);
    TasksUpdate(s.tasks[x := tx], k, tk);
  }

  lemma FireWF(s: State, k: nat)
    requires WF(s) && Enabled(s, Fire(k))
    ensures WF(Do(s, Fire(k)))
  {
    var x := s.tasks[k].hand.x;
    var f := s.tasks[x].fired + 1;
    assert TaskOk(s.tasks[k], k, |s.tasks|) && TaskOk(s.tasks[x], x, |s.tasks|);
    hide WF;
    TwoTasksWF(s, k, x, s.tasks[x].(fired := f), s.tasks[k].(hand := Counted(x, f)));
  }

  lemma SwapWF(s: State, k: nat)
    requires WF(s) && Enabled(s, Swap(k))
    ensures WF(Do(s, Swap(k)))
  {
    var x := s.tasks[k].hand.x;
    assert TaskOk(s.tasks[k], k, |s.tasks|) && TaskOk(s.tasks[x], x, |s.tasks|);
    TwoTasksWF(s, k, x, s.tasks[x].(status := Scheduled), s.tasks[k].(hand := Put(x)));
    TasksUpdate(s.tasks, k, s.tasks[k].(hand := Empty));
  }

  lemma EnqueueWF(s: State, k: nat, d: nat)
    requires WF(s) && Enabled(s, Enqueue(k, d))
    ensures WF(Do(s, Enqueue(k, d)))
  {
    var t := s.tasks[k];
    assert TaskOk(t, k, |s.tasks|);
    var x := t.hand.x;
    var s1 := SetTask(s, k, t.(hand := Empty));
    OneTaskState(s, k, t.(hand := Empty));
    DeliverWF(s1, x, d);
  }

  lemma OneTaskState(s: State, k: nat, t: Task)
    requires WF(s) && k < |s.tasks| && TaskOk(t, k, |s.tasks|) && t.acc == s.tasks[k].acc
    ensures WF(SetTask(s, k, t))
  {
    TasksUpdate(s.tasks, k, t);
  }

  lemma DeliverWF(s: State, x: nat, d: nat)
    requires WF(s) && x < |s.tasks| && d < |s.deques|
    ensures WF(Deliver(s, x, d))
  {
    assert TaskOk(s.tasks[x], x, |s.tasks|);
    if |s.deques[d]| < CAPACITY {
      assert Within(s.deques[d], 0, |s.tasks|);
    } else {
      OneTaskState(s, x, s.tasks[x].(runs := s.tasks[x].runs + 1));
    }
  }

  lemma AgentWF(s: State, a: Step)
    requires WF(s) && Enabled(s, a) && !ByParent(a)
    ensures WF(Do(s, a))
  {
    if a.PopFront? {
      DequesWF(s, a, a.d, s.deques[a.d][|s.deques[a.d]| - 1]);
    } else if a.Steal? {
      DequesWF(s, a, a.d, s.deques[a.d][0]);
    } else if a.Enqueue? {
      EnqueueWF(s, a.k, a.d);
    } else if a.Fire? {
      FireWF(s, a.k);
    } else if a.Swap? {
      SwapWF(s, a.k);
    } else {
      assert TaskOk(s.tasks[a.k], a.k, |s.tasks|);
      OneTaskWF(s, a, a.k);
    }
  }

  lemma StepWF(s: State, a: Step)
    requires WF(s) && Enabled(s, a)
    ensures WF(Do(s, a))
  {
    if ByParent(a) { ParentWF(s, a); } else { AgentWF(s, a); }
  }
}
