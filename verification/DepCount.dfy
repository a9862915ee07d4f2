/** Notification counting: `waitfor` against `fired`, who moves a task from
    CREATED to SCHEDULED, and how often a body starts. */
module DepCount {
  import opened Sums
  import opened DepMachine

  // ---- what is counted ------------------------------------------------------

  function Occurs(q: seq<nat>, x: nat): nat { multiset(q)[x] }

  lemma OccursIn(q: seq<nat>, x: nat)
    ensures x in q <==> Occurs(q, x) > 0
  {
  }

  /** Entries for x that task t still owes: pushed on its stack and not counted in
      x's `fired` yet. */
  function Owed(t: Task, x: nat): nat {
    Occurs(t.notify, x) + Occurs(t.pending, x) + if t.hand == Popped(x) then 1 else 0
  }

  function OwedBy(ts: seq<Task>, x: nat): (v: seq<nat>)
    ensures |v| == |ts|
  {
    seq(|ts|, k requires 0 <= k < |ts| => Owed(ts[k], x))
  }

  function TotalOwed(ts: seq<Task>, x: nat): nat { Sum(OwedBy(ts, x)) }

  lemma OwedUpdate(ts: seq<Task>, k: nat, t: Task, x: nat)
    requires k < |ts|
    ensures TotalOwed(ts[k := t], x) + Owed(ts[k], x) == TotalOwed(ts, x) + Owed(t, x)
  {
    assert OwedBy(ts[k := t], x) == OwedBy(ts, x)[k := Owed(t, x)];
    SumUpdate(OwedBy(ts, x), k, Owed(t, x));
  }

  lemma OwedAppend(ts: seq<Task>, t: Task, x: nat)
    ensures TotalOwed(ts + [t], x) == TotalOwed(ts, x) + Owed(t, x)
  {
    SumAppend(OwedBy(ts, x), OwedBy(ts + [t], x), Owed(t, x));
  }

  lemma OwedEntry(ts: seq<Task>, k: nat, x: nat)
    requires k < |ts|
    ensures Owed(ts[k], x) <= TotalOwed(ts, x)
  {
    SumAtLeast(OwedBy(ts, x), k, |ts|);
  }

  /** The deque entries and the enqueues under way for x. */
  function QueuedBy(dq: seq<seq<nat>>, x: nat): (v: seq<nat>)
    ensures |v| == |dq|
  {
    seq(|dq|, d requires 0 <= d < |dq| => Occurs(dq[d], x))
  }

  function Queued(dq: seq<seq<nat>>, x: nat): nat { Sum(QueuedBy(dq, x)) }

  function Putting1(t: Task, x: nat): nat { if t.hand == Put(x) then 1 else 0 }

  function PuttingBy(ts: seq<Task>, x: nat): (v: seq<nat>)
    ensures |v| == |ts|
  {
    seq(|ts|, k requires 0 <= k < |ts| => Putting1(ts[k], x))
  }

  function Delivering(ts: seq<Task>, x: nat): nat { Sum(PuttingBy(ts, x)) }

  lemma QueuedUpdate(dq: seq<seq<nat>>, d: nat, q: seq<nat>, x: nat)
    requires d < |dq|
    ensures Queued(dq[d := q], x) + Occurs(dq[d], x) == Queued(dq, x) + Occurs(q, x)
  {
    assert QueuedBy(dq[d := q], x) == QueuedBy(dq, x)[d := Occurs(q, x)];
    SumUpdate(QueuedBy(dq, x), d, Occurs(q, x));
  }

  lemma DeliveringUpdate(ts: seq<Task>, k: nat, t: Task, x: nat)
    requires k < |ts|
    ensures Delivering(ts[k := t], x) + Putting1(ts[k], x) == Delivering(ts, x) + Putting1(t, x)
  {
    assert PuttingBy(ts[k := t], x) == PuttingBy(ts, x)[k := Putting1(t, x)];
    SumUpdate(PuttingBy(ts, x), k, Putting1(t, x));
  }

  lemma DeliveringAppend(ts: seq<Task>, t: Task, x: nat)
    ensures Delivering(ts + [t], x) == Delivering(ts, x) + Putting1(t, x)
  {
    SumAppend(PuttingBy(ts, x), PuttingBy(ts + [t], x), Putting1(t, x));
  }

  // ---- the invariant --------------------------------------------------------

  predicate PhaseOk(t: Task) {
    && (!t.closed ==> t.pending == [] && t.hand == Empty && Rank(t.status) <= Rank(Releasing))
    && (t.closed ==> t.notify == [] && Rank(t.status) >= Rank(Releasing))
    && (t.status == Complete ==> t.pending == [] && t.hand == Empty)
  }

  ghost predicate PhasesOk(ts: seq<Task>) {
    forall k :: 0 <= k < |ts| ==> PhaseOk(ts[k])
  }

  /** Only the newest task can still be CREATING, and only while it is analysed. */
  ghost predicate CreatingOk(ts: seq<Task>, pc: Pc) {
    && (forall k :: 0 <= k < |ts| ==>
          (ts[k].status == Creating <==> k == |ts| - 1 && (Analysing(pc) || pc == Publish)))
    && (pc != Idle ==> ts != [])
    && (Analysing(pc) ==> ts[|ts| - 1].waitfor == 0)
    && (pc == Publish ==> ts[|ts| - 1].waitfor > 0)
    && (pc == Claiming ==> ts[|ts| - 1].status == Created && ts[|ts| - 1].waitfor == 0)
    && (pc == Putting ==> ts[|ts| - 1].status == Scheduled)
  }

  /** Successful pushes of task j so far. */
  function Pushes(ts: seq<Task>, pc: Pc, j: nat): nat
    requires j < |ts|
  {
    if j == |ts| - 1 && Analysing(pc) then pc.n else ts[j].waitfor
  }

  ghost predicate BalanceOk(ts: seq<Task>, pc: Pc) {
    && (forall j :: 0 <= j < |ts| ==> Pushes(ts, pc, j) == TotalOwed(ts, j) + ts[j].fired)
    && (forall j :: 0 <= j < |ts| && Rank(ts[j].status) >= Rank(Scheduled) ==> TotalOwed(ts, j) == 0)
  }

  /** t is the agent that made x's counter reach f and has not dropped it yet. */
  predicate Carries(t: Task, x: nat, f: nat) {
    (t.hand.Counted? || t.hand.Seen? || t.hand.Claim?) && t.hand.x == x && t.hand.f == f
  }

  predicate Carrying(t: Task) { t.hand.Counted? || t.hand.Seen? || t.hand.Claim? }

  ghost predicate HandOk(t: Task, ts: seq<Task>) {
    Carrying(t) ==>
      && t.hand.x < |ts|
      && 1 <= t.hand.f <= ts[t.hand.x].fired
      && (!t.hand.Counted? ==> ts[t.hand.x].status != Creating)
      && (t.hand.Claim? ==> t.hand.f == ts[t.hand.x].waitfor)
      && (ts[t.hand.x].status != Creating && t.hand.f == ts[t.hand.x].waitfor ==> ts[t.hand.x].status == Created)
  }

  ghost predicate Carried(ts: seq<Task>, x: nat, f: nat) {
    exists k :: 0 <= k < |ts| && Carries(ts[k], x, f)
  }

  ghost predicate HandsOk(ts: seq<Task>) {
    && (forall k :: 0 <= k < |ts| ==> HandOk(ts[k], ts))
    && (forall k, l :: 0 <= k < l < |ts| && Carrying(ts[k]) && Carrying(ts[l]) ==>
          (ts[k].hand.x, ts[k].hand.f) != (ts[l].hand.x, ts[l].hand.f))
  }

  /** Whoever completed the count of an unscheduled task is still on its way. */
  ghost predicate AwaitedOk(ts: seq<Task>, pc: Pc) {
    && (forall x :: 0 <= x < |ts| && ts[x].status == Created && ts[x].fired == ts[x].waitfor ==>
          (pc == Claiming && x == |ts| - 1) || Carried(ts, x, ts[x].fired))
    && (forall x :: 0 <= x < |ts| && ts[x].status == Creating && ts[x].fired > 0 ==> Carried(ts, x, ts[x].fired))
  }

  /** Deliveries under way plus body starts: one once x is SCHEDULED, else none. */
  ghost predicate TokenOk(s: State, x: nat)
    requires x < |s.tasks|
  {
    Queued(s.deques, x) + Delivering(s.tasks, x) + (if s.pc == Putting && x == |s.tasks| - 1 then 1 else 0)
      + s.tasks[x].runs == if Rank(s.tasks[x].status) >= Rank(Scheduled) then 1 else 0
  }

  ghost predicate TokensOk(s: State) {
    && (forall x :: 0 <= x < |s.tasks| ==> TokenOk(s, x))
    && (forall x :: 0 <= x < |s.tasks| && Rank(s.tasks[x].status) >= Rank(Executed) ==> s.tasks[x].runs == 1)
  }

  ghost predicate CountInv(s: State) {
    && PhasesOk(s.tasks)
    && CreatingOk(s.tasks, s.pc)
    && BalanceOk(s.tasks, s.pc)
    && HandsOk(s.tasks)
    && AwaitedOk(s.tasks, s.pc)
    && TokensOk(s)
  }

  // ---- analysis steps: at most one push -------------------------------------

  /** What an analysis step does to the tasks: nothing, or one push on task w. */
  ghost predicate AtMostOnePush(s: State, s': State, w: nat) {
    && s.tasks != [] && Analysing(s.pc) && Analysing(s'.pc) && s'.deques == s.deques
    && (|| (s'.tasks == s.tasks && s'.pc.n == s.pc.n)
        || (&& w < |s.tasks| - 1 && !s.tasks[w].closed
            && s'.tasks == PushOn(s, w).tasks && s'.pc.n == s.pc.n + 1))
  }

  predicate IsAnalysis(a: Step) { a.Analyse? || a.Reader? || a.JoinPush? }

  lemma AnalysePushes(s: State, c: Access) returns (w: nat)
    requires CanAnalyse(s, c)
    ensures AtMostOnePush(s, if c.out then AnalyseOut(s, c) else AnalyseIn(s, c), w)
  {
    w := if c.block in s.table then s.elems[s.table[c.block]].owner else 0;
  }

  lemma ReaderPushes(s: State) returns (w: nat)
    requires s.pc.Walk? && s.tasks != [] && Within(s.pc.rest, 0, |s.tasks|)
    ensures AtMostOnePush(s, DoReader(s), w)
  {
    w := if s.pc.rest == [] then 0 else s.pc.rest[0];
  }

  lemma JoinPushes(s: State) returns (w: nat)
    requires WF(s) && s.pc.Join?
    ensures AtMostOnePush(s, DoJoinPush(s), w)
  {
    var e := Joined(s);
    assert ElemOk(e, s.elems, |s.tasks|);
    w := if e.dep.Some? then s.elems[e.dep.value].owner else 0;
  }

  lemma ScanFacts(s: State)
    requires WF(s) && Enabled(s, Analyse)
    ensures CanAnalyse(s, s.tasks[|s.tasks| - 1].acc[s.pc.p])
    ensures Do(s, Analyse) == var c := s.tasks[|s.tasks| - 1].acc[s.pc.p];
              if c.out then AnalyseOut(s, c) else AnalyseIn(s, c)
  {
    var c := s.tasks[|s.tasks| - 1].acc[s.pc.p];
    if c.block in s.table { assert ElemOk(s.elems[s.table[c.block]], s.elems, |s.tasks|); }
  }

  lemma AnalysisPushes(s: State, a: Step) returns (w: nat)
    requires WF(s) && Enabled(s, a) && IsAnalysis(a)
    ensures AtMostOnePush(s, Do(s, a), w)
  {
    hide AtMostOnePush;
    if a.Reader? {
      w := ReaderPushes(s);
    } else if a.JoinPush? {
      w := JoinPushes(s);
    } else {
      ScanFacts(s);
      w := AnalysePushes(s, s.tasks[|s.tasks| - 1].acc[s.pc.p]);
    }
  }

  lemma PushOwed(s: State, w: nat, x: nat)
    requires s.tasks != [] && w < |s.tasks| - 1
    ensures TotalOwed(PushOn(s, w).tasks, x) == TotalOwed(s.tasks, x) + if x == |s.tasks| - 1 then 1 else 0
  {
    var t := |s.tasks| - 1;
    var tw := s.tasks[w].(notify := [t] + s.tasks[w].notify);
    OwedUpdate(s.tasks, w, tw, x);
    OwedUpdate(s.tasks[w := tw], t, s.tasks[t].(last := Some(w)), x);
  }

  lemma PushDelivering(s: State, w: nat, x: nat)
    requires s.tasks != [] && w < |s.tasks| - 1
    ensures Delivering(PushOn(s, w).tasks, x) == Delivering(s.tasks, x)
  {
    var t := |s.tasks| - 1;
    var tw := s.tasks[w].(notify := [t] + s.tasks[w].notify);
    DeliveringUpdate(s.tasks, w, tw, x);
    DeliveringUpdate(s.tasks[w := tw], t, s.tasks[t].(last := Some(w)), x);
  }

  /** Two task lists that agree on everything but stacks and deps_last. */
  ghost predicate SameHands(ts: seq<Task>, ts': seq<Task>) {
    |ts'| == |ts| && forall k :: 0 <= k < |ts| ==>
      && ts'[k].hand == ts[k].hand && ts'[k].status == ts[k].status && ts'[k].fired == ts[k].fired
      && ts'[k].waitfor == ts[k].waitfor && ts'[k].runs == ts[k].runs
  }

  lemma SameHandsKeep(ts: seq<Task>, ts': seq<Task>, pc: Pc, pc': Pc)
    requires SameHands(ts, ts') && HandsOk(ts) && AwaitedOk(ts, pc)
    requires pc == Claiming ==> pc' == Claiming
    ensures HandsOk(ts') && AwaitedOk(ts', pc')
  {
    forall k | 0 <= k < |ts'| ensures HandOk(ts'[k], ts') { assert HandOk(ts[k], ts); }
    forall x, f | Carried(ts, x, f) ensures Carried(ts', x, f) {
      var k :| 0 <= k < |ts| && Carries(ts[k], x, f);
      assert Carries(ts'[k], x, f);
    }
  }

  lemma PushBalance(s: State, s': State, w: nat, x: nat)
    requires AtMostOnePush(s, s', w) && x < |s.tasks|
    ensures |s'.tasks| == |s.tasks|
    ensures Pushes(s'.tasks, s'.pc, x) + TotalOwed(s.tasks, x) == Pushes(s.tasks, s.pc, x) + TotalOwed(s'.tasks, x)
    ensures TokenOk(s, x) ==> TokenOk(s', x)
    ensures x < |s.tasks| - 1 ==> TotalOwed(s'.tasks, x) == TotalOwed(s.tasks, x)
  {
    if s'.pc.n != s.pc.n {
      PushOwed(s, w, x);
      PushDelivering(s, w, x);
    }
  }

  lemma PushKeepsBalance(s: State, s': State, w: nat)
    requires AtMostOnePush(s, s', w) && BalanceOk(s.tasks, s.pc) && s.tasks[|s.tasks| - 1].status == Creating
    ensures BalanceOk(s'.tasks, s'.pc)
  {
    assert SameHands(s.tasks, s'.tasks);
    forall x | 0 <= x < |s'.tasks|
      ensures Pushes(s'.tasks, s'.pc, x) == TotalOwed(s'.tasks, x) + s'.tasks[x].fired
    {
      PushBalance(s, s', w, x);
      assert Pushes(s.tasks, s.pc, x) == TotalOwed(s.tasks, x) + s.tasks[x].fired;
    }
    forall x | 0 <= x < |s'.tasks| && Rank(s'.tasks[x].status) >= Rank(Scheduled)
      ensures TotalOwed(s'.tasks, x) == 0
    {
      PushBalance(s, s', w, x);
    }
  }

  lemma PushKeepsTokens(s: State, s': State, w: nat)
    requires AtMostOnePush(s, s', w) && TokensOk(s)
    ensures TokensOk(s')
  {
    assert SameHands(s.tasks, s'.tasks);
    forall x | 0 <= x < |s'.tasks| ensures TokenOk(s', x) {
      assert TokenOk(s, x);
      PushBalance(s, s', w, x);
    }
  }

  lemma PushKeeps(s: State, s': State, w: nat)
    requires AtMostOnePush(s, s', w) && CountInv(s)
    ensures CountInv(s')
  {
    hide BalanceOk, TokensOk, HandsOk, AwaitedOk;
    assert SameHands(s.tasks, s'.tasks);
    assert s.tasks[|s.tasks| - 1].status == Creating;
    SameHandsKeep(s.tasks, s'.tasks, s.pc, s'.pc);
    PushKeepsBalance(s, s', w);
    PushKeepsTokens(s, s', w);
  }

  // ---- spawning -------------------------------------------------------------

  lemma FreshOwed(s: State, x: nat)
    requires TasksOk(s.tasks) && DequesOk(s.deques, |s.tasks|) && x >= |s.tasks|
    ensures TotalOwed(s.tasks, x) == 0 && Queued(s.deques, x) == 0 && Delivering(s.tasks, x) == 0
  {
    forall k | 0 <= k < |s.tasks| ensures Owed(s.tasks[k], x) == 0 && Putting1(s.tasks[k], x) == 0 {
      assert TaskOk(s.tasks[k], k, |s.tasks|);
    }
    SumZero(OwedBy(s.tasks, x), |s.tasks|);
    SumZero(PuttingBy(s.tasks, x), |s.tasks|);
    forall d | 0 <= d < |s.deques| ensures Occurs(s.deques[d], x) == 0 {
      assert Within(s.deques[d], 0, |s.tasks|);
    }
    SumZero(QueuedBy(s.deques, x), |s.deques|);
  }

  /** Appending a fresh task, as Spawn does. */
  ghost predicate Appended(s: State, s': State, t: Task) {
    && s.pc == Idle && s'.pc == Scan(0, 0) && s'.tasks == s.tasks + [t] && s'.deques == s.deques
    && t.status == Creating && t.fired == 0 && t.waitfor == 0 && t.runs == 0
    && t.notify == [] && t.pending == [] && t.hand == Empty && !t.closed
  }

  lemma AppendBalance(s: State, s': State, t: Task)
    requires Appended(s, s', t) && BalanceOk(s.tasks, s.pc) && TokensOk(s)
    requires TasksOk(s.tasks) && DequesOk(s.deques, |s.tasks|)
    ensures BalanceOk(s'.tasks, s'.pc) && TokensOk(s')
  {
    forall x | 0 <= x < |s'.tasks|
      ensures TotalOwed(s'.tasks, x) == TotalOwed(s.tasks, x) && TokenOk(s', x)
    {
      OwedAppend(s.tasks, t, x);
      DeliveringAppend(s.tasks, t, x);
      if x == |s.tasks| { FreshOwed(s, x); } else { assert TokenOk(s, x); }
    }
    FreshOwed(s, |s.tasks|);
    forall x | 0 <= x < |s'.tasks|
      ensures Pushes(s'.tasks, s'.pc, x) == TotalOwed(s'.tasks, x) + s'.tasks[x].fired
    {
      assert x < |s.tasks| ==> Pushes(s.tasks, s.pc, x) == Pushes(s'.tasks, s'.pc, x);
    }
  }

  lemma AppendHands(ts: seq<Task>, t: Task)
    requires HandsOk(ts) && AwaitedOk(ts, Idle)
    requires t.hand == Empty && t.status == Creating && t.fired == 0
    ensures HandsOk(ts + [t]) && AwaitedOk(ts + [t], Scan(0, 0))
  {
    var ts' := ts + [t];
    forall k | 0 <= k < |ts'| ensures HandOk(ts'[k], ts') { if k < |ts| { assert HandOk(ts[k], ts); } }
    forall x, f | Carried(ts, x, f) ensures Carried(ts', x, f) {
      var k :| 0 <= k < |ts| && Carries(ts[k], x, f);
      assert Carries(ts'[k], x, f);
    }
  }

  // ---- updates of one task --------------------------------------------------

  lemma UpdBalance(ts: seq<Task>, pc: Pc, pc': Pc, k: nat, t: Task)
    requires BalanceOk(ts, pc) && k < |ts|
    requires forall x :: Owed(t, x) == Owed(ts[k], x)
    requires t.fired == ts[k].fired
    requires forall j :: 0 <= j < |ts| ==> Pushes(ts[k := t], pc', j) == Pushes(ts, pc, j)
    requires Rank(t.status) >= Rank(Scheduled) ==> Rank(ts[k].status) >= Rank(Scheduled) || TotalOwed(ts, k) == 0
    ensures BalanceOk(ts[k := t], pc')
  {
    var ts' := ts[k := t];
    forall j | 0 <= j < |ts'|
      ensures TotalOwed(ts', j) == TotalOwed(ts, j)
      ensures Pushes(ts', pc', j) == TotalOwed(ts', j) + ts'[j].fired
    {
      OwedUpdate(ts, k, t, j);
      assert Pushes(ts, pc, j) == TotalOwed(ts, j) + ts[j].fired;
    }
  }

  /** The tokens after an update of task k that keeps what it is delivering. */
  lemma UpdTokens(s: State, s': State, k: nat)
    requires k < |s.tasks| && |s'.tasks| == |s.tasks| && s'.tasks == s.tasks[k := s'.tasks[k]] && s'.deques == s.deques
    requires forall x :: Putting1(s'.tasks[k], x) == Putting1(s.tasks[k], x)
    requires s'.pc == s.pc || k == |s.tasks| - 1
    requires s'.tasks[k].runs == s.tasks[k].runs
    requires (if Rank(s'.tasks[k].status) >= Rank(Scheduled) then 1 else 0)
      - (if Rank(s.tasks[k].status) >= Rank(Scheduled) then 1 else 0)
      == (if s'.pc == Putting && k == |s.tasks| - 1 then 1 else 0) - (if s.pc == Putting && k == |s.tasks| - 1 then 1 else 0)
    requires TokensOk(s)
    requires Rank(s'.tasks[k].status) >= Rank(Executed) ==> s'.tasks[k].runs == 1
    ensures TokensOk(s')
  {
    forall x | 0 <= x < |s.tasks| ensures TokenOk(s', x) {
      assert TokenOk(s, x);
      DeliveringUpdate(s.tasks, k, s'.tasks[k], x);
    }
  }

  lemma CarriedKept(ts: seq<Task>, ts': seq<Task>, x: nat, f: nat)
    requires |ts'| == |ts| && Carried(ts, x, f)
    requires forall k :: 0 <= k < |ts| && Carries(ts[k], x, f) ==> Carries(ts'[k], x, f)
    ensures Carried(ts', x, f)
  {
    var k :| 0 <= k < |ts| && Carries(ts[k], x, f);
    assert Carries(ts'[k], x, f);
  }

  /** Task k changes status or waitfor, in an order the protocol allows. */
  lemma UpdHands(ts: seq<Task>, k: nat, t: Task)
    requires HandsOk(ts) && k < |ts| && t.hand == ts[k].hand && t.fired == ts[k].fired
    requires ts[k].status != Creating ==> t.status != Creating && t.waitfor == ts[k].waitfor
    requires t.status == Created || t.status == Creating || ts[k].status !in {Created, Creating}
             || forall l :: 0 <= l < |ts| ==> !Carries(ts[l], k, t.waitfor)
    ensures HandsOk(ts[k := t])
  {
    var ts' := ts[k := t];
    forall l | 0 <= l < |ts'| ensures HandOk(ts'[l], ts') {
      assert HandOk(ts[l], ts);
      assert Carrying(ts[l]) ==> Carries(ts[l], ts[l].hand.x, ts[l].hand.f);
    }
  }

  lemma UpdAwaited(ts: seq<Task>, pc: Pc, pc': Pc, k: nat, t: Task)
    requires AwaitedOk(ts, pc) && k < |ts| && t.hand == ts[k].hand && t.fired == ts[k].fired
    requires pc == Claiming ==> pc' == Claiming || k == |ts| - 1
    requires t.status == Created && t.fired == t.waitfor ==>
               (pc' == Claiming && k == |ts| - 1) || Carried(ts, k, t.fired)
    requires t.status == Creating ==> ts[k].status == Creating
    ensures AwaitedOk(ts[k := t], pc')
  {
    forall x, f | Carried(ts, x, f) ensures Carried(ts[k := t], x, f) { CarriedKept(ts, ts[k := t], x, f); }
  }

  lemma FinishKeeps(s: State)
    requires CountInv(s) && s.tasks != [] && s.pc.Scan?
    ensures CountInv(DoFinish(s))
  {
    hide BalanceOk, HandsOk, AwaitedOk, TokensOk;
    var t := |s.tasks| - 1;
    RunsOnce(s, t);
    PushesEqual(s, t);
    AwaitedAt(s.tasks, s.pc, t);
    var s' := DoFinish(s);
    FinishPhases(s);
    hide PhasesOk, CreatingOk, Carried, TotalOwed, Queued, Delivering;
    UpdBalance(s.tasks, s.pc, s'.pc, t, s'.tasks[t]);
    UpdTokens(s, s', t);
    UpdHands(s.tasks, t, s'.tasks[t]);
    UpdAwaited(s.tasks, s.pc, s'.pc, t, s'.tasks[t]);
  }

  lemma FinishPhases(s: State)
    requires PhasesOk(s.tasks) && CreatingOk(s.tasks, s.pc) && s.tasks != [] && s.pc.Scan?
    ensures PhasesOk(DoFinish(s).tasks) && CreatingOk(DoFinish(s).tasks, DoFinish(s).pc)
    ensures s.tasks[|s.tasks| - 1].status == Creating
  {
    assert PhaseOk(s.tasks[|s.tasks| - 1]);
  }

  lemma PublicationKeeps(s: State)
    requires CountInv(s) && s.tasks != [] && s.pc.Publish?
    ensures CountInv(DoPublication(s))
  {
    hide BalanceOk, HandsOk, AwaitedOk, TokensOk;
    var t := |s.tasks| - 1;
    RunsOnce(s, t);
    PushesEqual(s, t);
    AwaitedAt(s.tasks, s.pc, t);
    var s' := DoPublication(s);
    UpdBalance(s.tasks, s.pc, s'.pc, t, s'.tasks[t]);
    UpdTokens(s, s', t);
    UpdHands(s.tasks, t, s'.tasks[t]);
    UpdAwaited(s.tasks, s.pc, s'.pc, t, s'.tasks[t]);
  }

  lemma ParentClaimKeeps(s: State)
    requires CountInv(s) && s.tasks != [] && s.pc.Claiming?
    ensures s.tasks[|s.tasks| - 1].status == Created
    ensures CountInv(DoParentClaim(s))
  {
    hide BalanceOk, HandsOk, AwaitedOk, TokensOk;
    var t := |s.tasks| - 1;
    var s' := DoParentClaim(s);
    RunsOnce(s, t);
    PushesEqual(s, t);
    NobodyCarriesZero(s.tasks, t);
    UpdBalance(s.tasks, s.pc, s'.pc, t, s'.tasks[t]);
    UpdTokens(s, s', t);
    UpdHands(s.tasks, t, s'.tasks[t]);
    UpdAwaited(s.tasks, s.pc, s'.pc, t, s'.tasks[t]);
  }

  lemma NobodyCarriesZero(ts: seq<Task>, x: nat)
    requires HandsOk(ts)
    ensures forall l :: 0 <= l < |ts| ==> !Carries(ts[l], x, 0)
  {
    forall l | 0 <= l < |ts| ensures !Carries(ts[l], x, 0) { assert HandOk(ts[l], ts); }
  }

  lemma AwaitedAt(ts: seq<Task>, pc: Pc, x: nat)
    requires AwaitedOk(ts, pc) && x < |ts|
    ensures ts[x].status == Creating && ts[x].fired > 0 ==> Carried(ts, x, ts[x].fired)
  {
  }

  /** End, Release, Lock and Retire write the status or the stack of task k. */
  lemma PhaseKeeps(s: State, s': State, k: nat)
    requires CountInv(s) && k < |s.tasks| == |s'.tasks| && s' == SetTask(s, k, s'.tasks[k])
    requires forall x :: Owed(s'.tasks[k], x) == Owed(s.tasks[k], x)
    requires PhaseOk(s'.tasks[k]) && s'.tasks[k].hand == s.tasks[k].hand && s'.tasks[k].fired == s.tasks[k].fired
    requires s'.tasks[k].runs == s.tasks[k].runs && s'.tasks[k].waitfor == s.tasks[k].waitfor
    requires Rank(s.tasks[k].status) >= Rank(Scheduled) && Rank(s'.tasks[k].status) >= Rank(Executed)
    requires s.tasks[k].runs == 1
    requires s.pc == Putting ==> k != |s.tasks| - 1
    ensures CountInv(s')
  {
    hide BalanceOk, HandsOk, AwaitedOk, TokensOk;
    UpdBalance(s.tasks, s.pc, s.pc, k, s'.tasks[k]);
    UpdTokens(s, s', k);
    UpdHands(s.tasks, k, s'.tasks[k]);
    UpdAwaited(s.tasks, s.pc, s.pc, k, s'.tasks[k]);
  }
  // ---- the hands of releasing tasks -----------------------------------------

  /** Task k's hand moves on, or lets go; nothing else changes. */
  lemma MoveHands(ts: seq<Task>, k: nat, t: Task)
    requires HandsOk(ts) && k < |ts| && t.status == ts[k].status && t.waitfor == ts[k].waitfor && t.fired == ts[k].fired
    requires HandOk(t, ts)
    requires Carrying(t) ==> Carrying(ts[k]) && t.hand.x == ts[k].hand.x && t.hand.f == ts[k].hand.f
    ensures HandsOk(ts[k := t])
  {
    var ts' := ts[k := t];
    forall l | 0 <= l < |ts'| ensures HandOk(ts'[l], ts') { assert HandOk(ts[l], ts); }
  }

  lemma MoveAwaited(ts: seq<Task>, pc: Pc, k: nat, t: Task)
    requires AwaitedOk(ts, pc) && k < |ts| && t.status == ts[k].status && t.waitfor == ts[k].waitfor && t.fired == ts[k].fired
    requires Carrying(ts[k]) && ts[k].hand.x < |ts| ==>
               || Carries(t, ts[k].hand.x, ts[k].hand.f)
               || ts[k].hand.f != ts[ts[k].hand.x].fired
               || (ts[ts[k].hand.x].status == Created && ts[k].hand.f != ts[ts[k].hand.x].waitfor)
               || ts[ts[k].hand.x].status !in {Created, Creating}
    ensures AwaitedOk(ts[k := t], pc)
  {
    var ts' := ts[k := t];
    forall x | 0 <= x < |ts'| && Carried(ts, x, ts[x].fired)
      && (ts[x].status == Creating || (ts[x].status == Created && ts[x].fired == ts[x].waitfor))
      ensures Carried(ts', x, ts[x].fired)
    {
      CarriedKept(ts, ts', x, ts[x].fired);
    }
  }

  lemma RunsOnce(s: State, k: nat)
    requires TokensOk(s) && k < |s.tasks|
    ensures s.tasks[k].runs <= 1
    ensures Rank(s.tasks[k].status) >= Rank(Executed) ==> s.tasks[k].runs == 1
    ensures s.tasks[k].runs == 1 ==> Rank(s.tasks[k].status) >= Rank(Scheduled)
  {
    assert TokenOk(s, k);
  }

  lemma PushesEqual(s: State, x: nat)
    requires BalanceOk(s.tasks, s.pc) && x < |s.tasks|
    ensures Pushes(s.tasks, s.pc, x) == TotalOwed(s.tasks, x) + s.tasks[x].fired
    ensures Rank(s.tasks[x].status) >= Rank(Scheduled) ==> TotalOwed(s.tasks, x) == 0
  {
  }

  lemma HandIsOk(ts: seq<Task>, k: nat)
    requires HandsOk(ts) && k < |ts|
    ensures HandOk(ts[k], ts)
  {
  }

  /** Pop, Spin and Test, and the loss of a swap: only task k's list and hand move. */
  lemma HandKeeps(s: State, k: nat, t: Task)
    requires CountInv(s) && k < |s.tasks|
    requires t.status == s.tasks[k].status && t.waitfor == s.tasks[k].waitfor && t.fired == s.tasks[k].fired
    requires t.runs == s.tasks[k].runs && PhaseOk(t)
    requires forall x :: Owed(t, x) == Owed(s.tasks[k], x)
    requires !t.hand.Put? && !s.tasks[k].hand.Put?
    requires HandOk(t, s.tasks)
    requires Carrying(t) ==> Carrying(s.tasks[k]) && t.hand.x == s.tasks[k].hand.x && t.hand.f == s.tasks[k].hand.f
    requires AwaitedOk(s.tasks[k := t], s.pc)
    ensures CountInv(SetTask(s, k, t))
  {
    hide AwaitedOk, BalanceOk, TokensOk, HandsOk;
    RunsOnce(s, k);
    UpdBalance(s.tasks, s.pc, s.pc, k, t);
    UpdTokens(s, SetTask(s, k, t), k);
    MoveHands(s.tasks, k, t);
  }

  lemma PopKeeps(s: State, k: nat)
    requires CountInv(s) && k < |s.tasks| && s.tasks[k].closed && s.tasks[k].hand == Empty && s.tasks[k].pending != []
    ensures CountInv(DoPop(s, k))
  {
    var t := DoPop(s, k).tasks[k];
    assert PhaseOk(s.tasks[k]);
    assert s.tasks[k].pending == [s.tasks[k].pending[0]] + t.pending;
    MoveAwaited(s.tasks, s.pc, k, t);
    HandKeeps(s, k, t);
  }

  lemma SpinKeeps(s: State, k: nat)
    requires CountInv(s) && k < |s.tasks| && s.tasks[k].hand.Counted?
    requires s.tasks[k].hand.x < |s.tasks| && s.tasks[s.tasks[k].hand.x].status != Creating
    ensures CountInv(DoSpin(s, k))
  {
    var t := DoSpin(s, k).tasks[k];
    assert PhaseOk(s.tasks[k]) && HandOk(s.tasks[k], s.tasks);
    MoveAwaited(s.tasks, s.pc, k, t);
    HandKeeps(s, k, t);
  }

  lemma TestKeeps(s: State, k: nat)
    requires CountInv(s) && k < |s.tasks| && s.tasks[k].hand.Seen? && s.tasks[k].hand.x < |s.tasks|
    ensures CountInv(DoTest(s, k))
  {
    var t := DoTest(s, k).tasks[k];
    assert PhaseOk(s.tasks[k]) && HandOk(s.tasks[k], s.tasks);
    MoveAwaited(s.tasks, s.pc, k, t);
    HandKeeps(s, k, t);
  }

  /** The fired counter of x goes up by one and task k holds the new value. */
  lemma FireHands(ts: seq<Task>, k: nat, x: nat, tx: Task, tk: Task)
    requires HandsOk(ts) && k < |ts| && x < |ts| && k != x && !Carrying(ts[k])
    requires tx == ts[x].(fired := ts[x].fired + 1) && tk == ts[k].(hand := Counted(x, ts[x].fired + 1))
    requires ts[x].status !in {Creating, Created} ==> ts[x].fired + 1 != ts[x].waitfor
    ensures HandsOk(ts[x := tx][k := tk])
  {
    var ts' := ts[x := tx][k := tk];
    forall l | 0 <= l < |ts'| ensures HandOk(ts'[l], ts') { assert HandOk(ts[l], ts); }
    forall l, m | 0 <= l < m < |ts'| && Carrying(ts'[l]) && Carrying(ts'[m])
      ensures (ts'[l].hand.x, ts'[l].hand.f) != (ts'[m].hand.x, ts'[m].hand.f)
    {
      assert HandOk(ts[l], ts) && HandOk(ts[m], ts);
    }
  }

  lemma FireAwaited(ts: seq<Task>, pc: Pc, k: nat, x: nat, tx: Task, tk: Task)
    requires AwaitedOk(ts, pc) && k < |ts| && x < |ts| && k != x && !Carrying(ts[k])
    requires tx == ts[x].(fired := ts[x].fired + 1) && tk == ts[k].(hand := Counted(x, ts[x].fired + 1))
    ensures AwaitedOk(ts[x := tx][k := tk], pc)
  {
    var ts' := ts[x := tx][k := tk];
    assert Carries(ts'[k], x, ts'[x].fired);
    forall y | 0 <= y < |ts'| && y != x && Carried(ts, y, ts[y].fired) ensures Carried(ts', y, ts'[y].fired) {
      CarriedKept(ts, ts', y, ts[y].fired);
    }
  }

  lemma FireKeeps(s: State, k: nat)
    requires CountInv(s) && k < |s.tasks| && s.tasks[k].hand.Popped? && k < s.tasks[k].hand.x < |s.tasks|
    ensures CountInv(DoFire(s, k))
  {
    hide AwaitedOk, BalanceOk, TokensOk, HandsOk;
    var x := s.tasks[k].hand.x;
    var tx := s.tasks[x].(fired := s.tasks[x].fired + 1);
    var tk := s.tasks[k].(hand := Counted(x, s.tasks[x].fired + 1));
    assert PhaseOk(s.tasks[k]) && PhaseOk(s.tasks[x]);
    OwedEntry(s.tasks, k, x);
    PushesEqual(s, x);
    FireHands(s.tasks, k, x, tx, tk);
    FireAwaited(s.tasks, s.pc, k, x, tx, tk);
    FireSums(s, k, x, tx, tk);
  }

  /** Sums over the tasks when task x, then task k, is replaced. */
  lemma TwoSums(ts: seq<Task>, k: nat, x: nat, tx: Task, tk: Task, j: nat)
    requires k < |ts| && x < |ts| && k != x
    ensures var ts' := ts[x := tx][k := tk];
      && TotalOwed(ts', j) + Owed(ts[x], j) + Owed(ts[k], j) == TotalOwed(ts, j) + Owed(tx, j) + Owed(tk, j)
      && Delivering(ts', j) + Putting1(ts[x], j) + Putting1(ts[k], j) == Delivering(ts, j) + Putting1(tx, j) + Putting1(tk, j)
  {
    OwedUpdate(ts, x, tx, j);
    OwedUpdate(ts[x := tx], k, tk, j);
    DeliveringUpdate(ts, x, tx, j);
    DeliveringUpdate(ts[x := tx], k, tk, j);
  }

  lemma FireSums(s: State, k: nat, x: nat, tx: Task, tk: Task)
    requires BalanceOk(s.tasks, s.pc) && TokensOk(s) && k < |s.tasks| && x < |s.tasks| && k != x
    requires s.tasks[k].hand == Popped(x)
    requires tx == s.tasks[x].(fired := s.tasks[x].fired + 1) && tk == s.tasks[k].(hand := Counted(x, s.tasks[x].fired + 1))
    ensures BalanceOk(s.tasks[x := tx][k := tk], s.pc) && TokensOk(s.(tasks := s.tasks[x := tx][k := tk]))
  {
    hide TotalOwed, Delivering, Queued;
    var ts' := s.tasks[x := tx][k := tk];
    var s' := s.(tasks := ts');
    forall j | 0 <= j < |ts'|
      ensures TotalOwed(ts', j) + (if j == x then 1 else 0) == TotalOwed(s.tasks, j)
      ensures Pushes(ts', s.pc, j) == TotalOwed(ts', j) + ts'[j].fired
      ensures TokenOk(s', j)
    {
      TwoSums(s.tasks, k, x, tx, tk, j);
      assert Pushes(s.tasks, s.pc, j) == TotalOwed(s.tasks, j) + s.tasks[j].fired;
      assert TokenOk(s, j);
    }
  }

  lemma SwapHands(ts: seq<Task>, k: nat, x: nat, tx: Task, tk: Task)
    requires HandsOk(ts) && k < |ts| && x < |ts| && k != x && ts[k].hand.Claim? && ts[k].hand.x == x
    requires tx == ts[x].(status := Scheduled) && tk == ts[k].(hand := Put(x)) && ts[x].status == Created
    ensures HandsOk(ts[x := tx][k := tk])
  {
    var ts' := ts[x := tx][k := tk];
    assert HandOk(ts[k], ts);
    forall l | 0 <= l < |ts'| ensures HandOk(ts'[l], ts') { assert HandOk(ts[l], ts); }
  }

  lemma SwapAwaited(ts: seq<Task>, pc: Pc, k: nat, x: nat, tx: Task, tk: Task)
    requires AwaitedOk(ts, pc) && k < |ts| && x < |ts| && k != x && ts[k].hand.Claim? && ts[k].hand.x == x
    requires tx == ts[x].(status := Scheduled) && tk == ts[k].(hand := Put(x)) && ts[x].status == Created
    ensures AwaitedOk(ts[x := tx][k := tk], pc)
  {
    var ts' := ts[x := tx][k := tk];
    forall y | 0 <= y < |ts'| && y != x && Carried(ts, y, ts[y].fired) ensures Carried(ts', y, ts'[y].fired) {
      CarriedKept(ts, ts', y, ts[y].fired);
    }
  }

  lemma SwapSums(s: State, k: nat, x: nat, tx: Task, tk: Task)
    requires BalanceOk(s.tasks, s.pc) && TokensOk(s) && k < |s.tasks| && x < |s.tasks| && k != x
    requires s.tasks[k].hand.Claim? && s.tasks[x].status == Created && TotalOwed(s.tasks, x) == 0
    requires s.pc == Putting ==> x != |s.tasks| - 1
    requires tx == s.tasks[x].(status := Scheduled) && tk == s.tasks[k].(hand := Put(x))
    ensures BalanceOk(s.tasks[x := tx][k := tk], s.pc) && TokensOk(s.(tasks := s.tasks[x := tx][k := tk]))
  {
    hide TotalOwed, Delivering, Queued;
    var ts' := s.tasks[x := tx][k := tk];
    var s' := s.(tasks := ts');
    forall j | 0 <= j < |ts'|
      ensures TotalOwed(ts', j) == TotalOwed(s.tasks, j)
      ensures Pushes(ts', s.pc, j) == TotalOwed(ts', j) + ts'[j].fired
      ensures TokenOk(s', j)
    {
      TwoSums(s.tasks, k, x, tx, tk, j);
      assert Pushes(s.tasks, s.pc, j) == TotalOwed(s.tasks, j) + s.tasks[j].fired;
      assert TokenOk(s, j);
    }
  }

  /** The compare-and-swap of schedule_task never loses here. */
  lemma SwapKeeps(s: State, k: nat)
    requires CountInv(s) && k < |s.tasks| && s.tasks[k].hand.Claim? && k < s.tasks[k].hand.x < |s.tasks|
    ensures s.tasks[s.tasks[k].hand.x].status == Created
    ensures CountInv(DoSwap(s, k))
  {
    hide AwaitedOk, BalanceOk, TokensOk, HandsOk;
    var x := s.tasks[k].hand.x;
    assert PhaseOk(s.tasks[k]) && PhaseOk(s.tasks[x]);
    HandIsOk(s.tasks, k);
    PushesEqual(s, x);
    var tx := s.tasks[x].(status := Scheduled);
    var tk := s.tasks[k].(hand := Put(x));
    SwapHands(s.tasks, k, x, tx, tk);
    SwapAwaited(s.tasks, s.pc, k, x, tx, tk);
    SwapSums(s, k, x, tx, tk);
  }
  // ---- deliveries and starts ------------------------------------------------

  ghost predicate SameButRuns(ts: seq<Task>, ts': seq<Task>) {
    |ts'| == |ts| && forall k :: 0 <= k < |ts| ==>
      || ts'[k] == ts[k].(runs := ts'[k].runs)
      || (ts[k].hand.Put? && ts'[k] == ts[k].(runs := ts'[k].runs, hand := Empty))
  }

  lemma RunsHands(ts: seq<Task>, ts': seq<Task>)
    requires SameButRuns(ts, ts') && HandsOk(ts)
    ensures HandsOk(ts')
  {
    forall k | 0 <= k < |ts'| ensures HandOk(ts'[k], ts') { assert HandOk(ts[k], ts); }
  }

  lemma RunsAwaited(ts: seq<Task>, ts': seq<Task>, pc: Pc, pc': Pc)
    requires SameButRuns(ts, ts') && AwaitedOk(ts, pc) && (pc' == pc || pc == Putting)
    ensures AwaitedOk(ts', pc')
  {
    forall x, f | Carried(ts, x, f) ensures Carried(ts', x, f) { CarriedKept(ts, ts', x, f); }
  }

  lemma RunsBalance(ts: seq<Task>, ts': seq<Task>, pc: Pc, pc': Pc)
    requires SameButRuns(ts, ts') && BalanceOk(ts, pc) && (pc' == pc || (pc == Putting && pc' == Idle))
    ensures BalanceOk(ts', pc')
  {
    forall x | 0 <= x < |ts'|
      ensures Pushes(ts', pc', x) == TotalOwed(ts', x) + ts'[x].fired
      ensures TotalOwed(ts', x) == TotalOwed(ts, x)
    {
      assert OwedBy(ts', x) == OwedBy(ts, x);
      assert Pushes(ts, pc, x) == TotalOwed(ts, x) + ts[x].fired;
    }
  }

  lemma RunsKeep(s: State, s': State)
    requires CountInv(s) && SameButRuns(s.tasks, s'.tasks) && TokensOk(s')
    requires s'.pc == s.pc || (s.pc == Putting && s'.pc == Idle)
    ensures CountInv(s')
  {
    hide HandsOk, AwaitedOk, BalanceOk, TokensOk;
    RunsHands(s.tasks, s'.tasks);
    RunsAwaited(s.tasks, s'.tasks, s.pc, s'.pc);
    RunsBalance(s.tasks, s'.tasks, s.pc, s'.pc);
  }

  /** schedule_task's enqueue, by the parent or by the releasing task k. */
  lemma ParentPutKeeps(s: State, d: nat)
    requires CountInv(s) && s.pc.Putting? && s.tasks != [] && d < |s.deques|
    ensures CountInv(Deliver(s.(pc := Idle), |s.tasks| - 1, d))
  {
    hide Queued, Delivering, BalanceOk, HandsOk, AwaitedOk;
    var x := |s.tasks| - 1;
    var s' := Deliver(s.(pc := Idle), x, d);
    forall j | 0 <= j < |s.tasks| ensures TokenOk(s', j) {
      assert TokenOk(s, j);
      QueuedUpdate(s.deques, d, s.deques[d] + [x], j);
      DeliveringUpdate(s.tasks, x, s.tasks[x].(runs := s.tasks[x].runs + 1), j);
    }
    assert TokenOk(s', x);
    RunsKeep(s, s');
  }

  lemma EnqueueKeeps(s: State, k: nat, d: nat)
    requires CountInv(s) && k < |s.tasks| && s.tasks[k].hand.Put? && k < s.tasks[k].hand.x < |s.tasks| && d < |s.deques|
    ensures CountInv(DoEnqueue(s, k, d))
  {
    hide Queued, Delivering, BalanceOk, HandsOk, AwaitedOk;
    var x := s.tasks[k].hand.x;
    var tk := s.tasks[k].(hand := Empty);
    var tx := s.tasks[x].(runs := s.tasks[x].runs + 1);
    var s' := DoEnqueue(s, k, d);
    forall j | 0 <= j < |s.tasks| ensures TokenOk(s', j) {
      assert TokenOk(s, j);
      QueuedUpdate(s.deques, d, s.deques[d] + [x], j);
      DeliveringUpdate(s.tasks, k, tk, j);
      DeliveringUpdate(s.tasks[k := tk], x, tx, j);
    }
    assert TokenOk(s', x);
    RunsKeep(s, s');
  }

  lemma StartKeeps(s: State, x: nat, d: nat, rest: seq<nat>)
    requires CountInv(s) && x < |s.tasks| && d < |s.deques|
    requires forall j :: Occurs(s.deques[d], j) == Occurs(rest, j) + if j == x then 1 else 0
    ensures CountInv(Start(s, x, d, rest))
  {
    hide Queued, Delivering, BalanceOk, HandsOk, AwaitedOk;
    var s' := Start(s, x, d, rest);
    forall j | 0 <= j < |s.tasks| ensures TokenOk(s', j) {
      assert TokenOk(s, j);
      QueuedUpdate(s.deques, d, rest, j);
      DeliveringUpdate(s.tasks, x, s'.tasks[x], j);
    }
    assert TokenOk(s', x);
    RunsKeep(s, s');
  }

  lemma PopFrontKeeps(s: State, d: nat)
    requires CountInv(s) && DequesOk(s.deques, |s.tasks|) && d < |s.deques| && s.deques[d] != []
    ensures var q := s.deques[d]; q[|q| - 1] < |s.tasks| && CountInv(Start(s, q[|q| - 1], d, q[..|q| - 1]))
  {
    var q := s.deques[d];
    assert Within(q, 0, |s.tasks|);
    assert q == q[..|q| - 1] + [q[|q| - 1]];
    StartKeeps(s, q[|q| - 1], d, q[..|q| - 1]);
  }

  lemma StealKeeps(s: State, d: nat)
    requires CountInv(s) && DequesOk(s.deques, |s.tasks|) && d < |s.deques| && s.deques[d] != []
    ensures var q := s.deques[d]; q[0] < |s.tasks| && CountInv(Start(s, q[0], d, q[1..]))
  {
    var q := s.deques[d];
    assert Within(q, 0, |s.tasks|);
    assert q == [q[0]] + q[1..];
    StartKeeps(s, q[0], d, q[1..]);
  }

  lemma SpawnKeeps(s: State, args: seq<Arg>)
    requires CountInv(s) && WF(s) && Enabled(s, Spawn(args))
    ensures CountInv(Do(s, Spawn(args)))
  {
    hide BalanceOk, HandsOk, AwaitedOk, TokensOk;
    var s' := Do(s, Spawn(args));
    AppendBalance(s, s', NewTask(args));
    AppendHands(s.tasks, NewTask(args));
  }

  /** End, Release, Lock and Retire. */
  lemma StatusKeeps(s: State, a: Step, k: nat)
    requires CountInv(s) && WF(s) && Enabled(s, a) && a in {End(k), Release(k), Lock(k), Retire(k)}
    ensures CountInv(Do(s, a))
  {
    assert PhasesOk(s.tasks) && TokensOk(s);
    hide *;
    StatusRuns(s, a, k);
    PutNotRunning(s);
    StatusMoves(s, a, k);
    PhaseKeeps(s, Do(s, a), k);
  }

  lemma StatusRuns(s: State, a: Step, k: nat)
    requires TokensOk(s) && PhasesOk(s.tasks) && Enabled(s, a) && a in {End(k), Release(k), Lock(k), Retire(k)}
    ensures k < |s.tasks| && s.tasks[k].runs == 1 && PhaseOk(s.tasks[k])
  {
    RunsOnce(s, k);
    hide TokensOk;
    assert PhaseOk(s.tasks[k]);
  }

  lemma StatusMoves(s: State, a: Step, k: nat)
    requires WF(s) && Enabled(s, a) && a in {End(k), Release(k), Lock(k), Retire(k)} && k < |s.tasks| && PhaseOk(s.tasks[k])
    requires s.tasks[k].runs == 1
    ensures var s' := Do(s, a); |s'.tasks| == |s.tasks| && s' == SetTask(s, k, s'.tasks[k])
    ensures var t, t' := s.tasks[k], Do(s, a).tasks[k];
      && (forall x :: Owed(t', x) == Owed(t, x)) && PhaseOk(t') && t'.hand == t.hand && t'.fired == t.fired
      && t'.runs == t.runs && t'.waitfor == t.waitfor
      && Rank(t.status) >= Rank(Scheduled) && Rank(t'.status) >= Rank(Executed)
  {
    hide WF;
  }

  lemma PutNotRunning(s: State)
    requires TokensOk(s)
    ensures s.pc == Putting && s.tasks != [] ==> s.tasks[|s.tasks| - 1].runs == 0
  {
    if s.pc == Putting && s.tasks != [] { assert TokenOk(s, |s.tasks| - 1); }
  }

  lemma ParentKeeps(s: State, a: Step)
    requires CountInv(s) && WF(s) && Enabled(s, a) && ByParent(a)
    ensures CountInv(Do(s, a))
  {
    hide CountInv, AtMostOnePush;
    if a.Spawn? { SpawnKeeps(s, a.args); }
    else if IsAnalysis(a) {
      var w := AnalysisPushes(s, a);
      PushKeeps(s, Do(s, a), w);
    }
    else if a.Finish? { FinishKeeps(s); }
    else if a.Publication? { PublicationKeeps(s); }
    else if a.ParentClaim? { ParentClaimKeeps(s); }
    else { ParentPutKeeps(s, a.d); }
  }

  lemma AgentKeeps(s: State, a: Step)
    requires CountInv(s) && WF(s) && Enabled(s, a) && !ByParent(a)
    ensures CountInv(Do(s, a))
  {
    hide CountInv;
    if a.PopFront? { PopFrontKeeps(s, a.d); }
    else if a.Steal? { StealKeeps(s, a.d); }
    else if a.End? || a.Release? || a.Lock? || a.Retire? { StatusKeeps(s, a, a.k); }
    else {
      assert TaskOk(s.tasks[a.k], a.k, |s.tasks|);
      if a.Pop? { PopKeeps(s, a.k); }
      else if a.Fire? { FireKeeps(s, a.k); }
      else if a.Spin? { SpinKeeps(s, a.k); }
      else if a.Test? { TestKeeps(s, a.k); }
      else if a.Swap? { SwapKeeps(s, a.k); }
      else { EnqueueKeeps(s, a.k, a.d); }
    }
  }

  lemma StepKeeps(s: State, a: Step)
    requires WF(s) && CountInv(s) && Enabled(s, a)
    ensures WF(Do(s, a)) && CountInv(Do(s, a))
  {
    hide WF, CountInv, Enabled;
    StepWF(s, a);
    if ByParent(a) { ParentKeeps(s, a); } else { AgentKeeps(s, a); }
  }

  lemma {:induction false} RunKeeps(threads: nat, tr: seq<State>, steps: seq<Step>, i: nat)
    requires IsRun(threads, tr, steps) && i < |tr|
    ensures WF(tr[i]) && CountInv(tr[i])
  {
    if i > 0 {
      RunKeeps(threads, tr, steps, i - 1);
      assert Next(tr[i - 1], steps[i - 1], tr[i]);
      StepKeeps(tr[i - 1], steps[i - 1]);
    }
  }

  /** A step of a run, with what is known where it starts. */
  lemma RunStep(threads: nat, tr: seq<State>, steps: seq<Step>, n: nat)
    requires IsRun(threads, tr, steps) && n + 1 < |tr|
    ensures n < |steps| && WF(tr[n]) && CountInv(tr[n]) && Enabled(tr[n], steps[n]) && tr[n + 1] == Do(tr[n], steps[n])
  {
    hide CountInv, WF, Enabled, Do;
    RunKeeps(threads, tr, steps, n);
    assert Next(tr[n], steps[n], tr[n + 1]);
  }
}
