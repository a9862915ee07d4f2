/** Whole runs over the deques of src/queue.c: whatever was proved about DepMachine's
    runs, with its ideal deques, holds of them as long as swaps are fair; and
    exactly when they are, each task is in one place. */
module DepWhole {
  import opened Sums
  import opened DepMachine
  import opened DepCount
  import opened DepOrder
  import opened DepFragment
  import opened DepSerial
  import opened DepProgress
  import opened DepDeques
  import Bytes
  import Q = Deque
  import R = DequeRuns

  // ---- the start ---------------------------------------------------------------------

  lemma StartHands(thieves: nat, qs: seq<Q.State>, n: nat)
    requires forall d :: 0 <= d < |qs| ==> qs[d] == R.Init(thieves)
    ensures HandsIn(qs, n)
  {
    hide R.InHands, R.Init;
    forall d, x: nat | 0 <= d < |qs| ensures R.InHands(qs[d], x) == 0 { R.NoHands(thieves, x); }
  }

  lemma StartGood(threads: nat, thieves: nat)
    ensures Good(FullStart(threads, thieves)) && Abs(FullStart(threads, thieves)) == Init(threads)
  {
    var c := FullStart(threads, thieves);
    R.InitInv(thieves);
    StartHands(thieves, c.qs, 0);
    RunKeeps(threads, [Init(threads)], [], 0);
    hide R.Init, HandsIn, WF, CountInv, Q.Inv, Q.Content;
    assert forall d :: 0 <= d < threads ==> !InEnqueue(c.qs[d]) by { StartRests(thieves); }
    assert Q.CountersOk(R.Init(thieves)) by { StartRests(thieves); }
    hide InEnqueue, Q.CountersOk;
    assert Abs(c).tasks == [] && Abs(c).deques == seq(threads, _ => []);
  }

  lemma StartRests(thieves: nat)
    ensures !InEnqueue(R.Init(thieves)) && Q.CountersOk(R.Init(thieves))
    ensures R.Contents(R.Init(thieves)) == []
  {
    R.InitInv(thieves);
    Q.InvParts(R.Init(thieves));
  }

  // ---- projection ----------------------------------------------------------------------

  lemma FullStep(threads: nat, thieves: nat, cs: seq<Full>, acts: seq<Act>, n: nat)
    requires FullRun(threads, thieves, cs, acts) && n < |acts|
    ensures |cs| == |acts| + 1 && CanAct(cs[n], acts[n]) && cs[n + 1] == DoAct(cs[n], acts[n])
  {
    hide CanAct, DoAct;
  }

  /** The first n acts, as steps of DepMachine. */
  function Projected(cs: seq<Full>, acts: seq<Act>, n: nat): seq<Step>
    requires n <= |acts| && n <= |cs|
  {
    if n == 0 then []
    else
      var before := Projected(cs, acts, n - 1);
      match AbsStep(cs[n - 1], acts[n - 1])
      case None => before
      case Some(a) => before + [a]
  }

  lemma SimulatesIs(c: Full, act: Act)
    requires Simulates(c, act)
    ensures CanAct(c, act) && Good(c) && Good(DoAct(c, act)) && WF(Abs(c)) && CountInv(Abs(c))
    ensures match AbsStep(c, act)
            case None => Abs(DoAct(c, act)) == Abs(c)
            case Some(a) => Next(Abs(c), a, Abs(DoAct(c, act)))
  {
    hide WF, CountInv, Abs, AbsStep, Enabled, Do;
  }

  lemma GoodQs(c: Full)
    requires Good(c)
    ensures QsOk(c.qs)
  {
  }

  lemma MoreSteps(threads: nat, tr: seq<State>, steps: seq<Step>, a: Step, s': State)
    requires DepMachine.IsRun(threads, tr, steps) && Next(tr[|steps|], a, s')
    ensures DepMachine.IsRun(threads, tr + [s'], steps + [a])
  {
    hide Next, Init;
    var tr', steps' := tr + [s'], steps + [a];
    forall i | 0 <= i < |steps'| ensures Next(tr'[i], steps'[i], tr'[i + 1]) {
      if i < |steps| { assert Next(tr[i], steps[i], tr[i + 1]); }
    }
  }

  /** Every run over the real deques, without its invisible accesses, is a run of
      DepMachine that ends in the state it stands for. */
  lemma {:induction false} Projects(threads: nat, thieves: nat, cs: seq<Full>, acts: seq<Act>, n: nat) returns (tr: seq<State>)
    requires FullRun(threads, thieves, cs, acts) && FairTo(cs, acts, n) && n < |cs|
    ensures n <= |acts| && Good(cs[n])
    ensures var steps := Projected(cs, acts, n);
      DepMachine.IsRun(threads, tr, steps) && |tr| == |steps| + 1 && tr[|steps|] == Abs(cs[n])
  {
    hide Good, CanAct, DoAct, FairAct, Abs, Simulates, Next, Init, AbsStep, FullStart;
    if n == 0 {
      StartGood(threads, thieves);
      tr := [Init(threads)];
    } else {
      tr := Projects(threads, thieves, cs, acts, n - 1);
      FullStep(threads, thieves, cs, acts, n - 1);
      StepSimulates(cs[n - 1], acts[n - 1]);
      SimulatesIs(cs[n - 1], acts[n - 1]);
      var a := AbsStep(cs[n - 1], acts[n - 1]);
      GoodQs(cs[n]);
      if a.Some? {
        MoreSteps(threads, tr, Projected(cs, acts, n - 1), a.value, Abs(cs[n]));
        tr := tr + [Abs(cs[n])];
      }
    }
  }

  // ---- bodies --------------------------------------------------------------------------

  lemma AbsTask(c: Full, j: nat)
    requires Good(c) && j < |c.core.tasks|
    ensures |Abs(c).tasks| == |c.core.tasks| && Abs(c).pc == c.core.pc && |Abs(c).deques| == |c.qs|
    ensures Abs(c).tasks[j] == c.core.tasks[j].(runs := c.core.tasks[j].runs + Hands(c.qs, j))
  {
    hide WF, CountInv, Hands;
  }

  /** What the end of enqueue and a returned task do to one task. */
  lemma OnRuns(c: Full, d: nat, b: Q.Step, j: nat)
    requires CanAct(c, On(d, b)) && j < |c.core.tasks|
    ensures var s' := DoOn(c, d, b).core;
      |s'.tasks| == |c.core.tasks| && s'.tasks[j].runs >= c.core.tasks[j].runs && s'.tasks[j].status == c.core.tasks[j].status
  {
    hide Q.Do, Q.LooksFull, Given, WF, Do;
  }

  /** What an act does to the number of times that a body has started. */
  lemma RunsGrow(c: Full, act: Act, j: nat)
    requires Good(c) && CanAct(c, act) && j < |c.core.tasks|
    ensures j < |DoAct(c, act).core.tasks| && DoAct(c, act).core.tasks[j].runs >= c.core.tasks[j].runs
    ensures !OnCore(act) ==> DoAct(c, act).core.tasks[j].status == c.core.tasks[j].status
                             && |DoAct(c, act).core.tasks| == |c.core.tasks|
  {
    if OnCore(act) {
      CoreGrow(c, act, j);
      return;
    }
    match act
    case On(d, b) => OnRuns(c, d, b, j); hide Good, DoOn, Q.Enabled;
    case Begin(d, who) => hide Good, Q.Do, Wants;
  }

  lemma CoreGrow(c: Full, act: Act, j: nat)
    requires CanAct(c, act) && OnCore(act) && j < |c.core.tasks|
    ensures j < |DoAct(c, act).core.tasks| && DoAct(c, act).core.tasks[j].runs == c.core.tasks[j].runs
  {
    OnCoreIs(c, act);
    hide CanAct, DoAct, AbsStep, WF, Do, Enabled;
    if AbsStep(c, act).Some? { CoreRuns(c.core, AbsStep(c, act).value, j); }
  }

  lemma CoreRuns(s: State, a: Step, j: nat)
    requires WF(s) && Enabled(s, a) && IsCore(a) && j < |s.tasks|
    ensures j < |Do(s, a).tasks| && Do(s, a).tasks[j].runs == s.tasks[j].runs
  {
    if IsAnalysis(a) {
      var w := AnalysisPushes(s, a);
      hide WF, Do;
    } else if a.Fire? || a.Swap? {
      HandRuns(s, a, j);
    } else {
      hide WF;
    }
  }

  lemma HandRuns(s: State, a: Step, j: nat)
    requires WF(s) && Enabled(s, a) && (a.Fire? || a.Swap?) && j < |s.tasks|
    ensures j < |Do(s, a).tasks| && Do(s, a).tasks[j].runs == s.tasks[j].runs
  {
    assert TaskOk(s.tasks[a.k], a.k, |s.tasks|);
    hide WF;
  }

  lemma RunsOnceHere(c: Full, j: nat)
    requires Good(c) && j < |c.core.tasks|
    ensures c.core.tasks[j].runs + Hands(c.qs, j) <= 1
    ensures c.core.tasks[j].runs > 0 ==> Started(c.core.tasks[j])
  {
    AbsTask(c, j);
    hide Hands, WF;
    RunsOnce(Abs(c), j);
  }

  /** Executed comes from the end of a body that has started. */
  lemma EndedRuns(c: Full, act: Act, j: nat)
    requires Good(c) && CanAct(c, act) && Simulates(c, act) && j < |DoAct(c, act).core.tasks|
    requires Rank(DoAct(c, act).core.tasks[j].status) >= Rank(Executed)
    ensures j < |c.core.tasks| && (Rank(c.core.tasks[j].status) >= Rank(Executed) || c.core.tasks[j].runs > 0)
  {
    hide Good, CanAct, Simulates, DoAct, AbsStep, Abs, Next;
    if OnCore(act) {
      SimulatesIs(c, act);
      OnCoreIs(c, act);
      AbsTask(DoAct(c, act), j);
      AbsLength(DoAct(c, act));
      if AbsStep(c, act).Some? { CoreEnds(c, AbsStep(c, act).value, DoAct(c, act), j); }
    } else {
      SameTasks(c, act);
      RunsGrow(c, act, j);
    }
  }

  lemma SameTasks(c: Full, act: Act)
    requires Good(c) && CanAct(c, act) && !OnCore(act)
    ensures |DoAct(c, act).core.tasks| == |c.core.tasks|
  {
    hide Q.Do, Good, WF, Q.LooksFull, Given;
  }

  lemma CoreEnds(c: Full, a: Step, c': Full, j: nat)
    requires Good(c) && Good(c') && WF(c.core) && Enabled(c.core, a) && Next(Abs(c), a, Abs(c')) && j < |c'.core.tasks|
    requires Abs(c').tasks[j].status == c'.core.tasks[j].status && |Abs(c').tasks| == |c'.core.tasks|
    requires Rank(c'.core.tasks[j].status) >= Rank(Executed)
    ensures j < |c.core.tasks| && (Rank(c.core.tasks[j].status) >= Rank(Executed) || c.core.tasks[j].runs > 0)
  {
    GoodParts(c);
    ExecutedBefore(Abs(c), a, j);
    hide WF, CountInv, Good, Do, Abs;
    if j < |c.core.tasks| { AbsTask(c, j); }
    AbsLength(c);
  }

  lemma GoodParts(c: Full)
    requires Good(c)
    ensures WF(Abs(c)) && CountInv(Abs(c))
  {
  }

  lemma AbsLength(c: Full)
    requires Good(c)
    ensures |Abs(c).tasks| == |c.core.tasks|
  {
    hide WF, CountInv;
  }

  /** A body starts at most once, not before SCHEDULED, and exactly once by EXECUTED:
      through the byte counters and the race for the last element of src/queue.c, theft,
      and inline execution, as long as swaps are fair. */
  lemma {:induction false} BodiesRunOnce(threads: nat, thieves: nat, cs: seq<Full>, acts: seq<Act>, n: nat, j: nat)
    requires FullRun(threads, thieves, cs, acts) && FairTo(cs, acts, n) && n < |cs| && j < |cs[n].core.tasks|
    ensures cs[n].core.tasks[j].runs <= 1
    ensures cs[n].core.tasks[j].runs == 1 ==> Started(cs[n].core.tasks[j])
    ensures Rank(cs[n].core.tasks[j].status) >= Rank(Executed) ==> cs[n].core.tasks[j].runs == 1
  {
    var tr := Projects(threads, thieves, cs, acts, n);
    RunsOnceHere(cs[n], j);
    if n > 0 && Rank(cs[n].core.tasks[j].status) >= Rank(Executed) {
      hide Good, CanAct, DoAct, FairAct, Abs, Simulates, Next, Init, AbsStep, FullStart;
      var before := Projects(threads, thieves, cs, acts, n - 1);
      FullStep(threads, thieves, cs, acts, n - 1);
      StepSimulates(cs[n - 1], acts[n - 1]);
      EndedRuns(cs[n - 1], acts[n - 1], j);
      if Rank(cs[n - 1].core.tasks[j].status) >= Rank(Executed) { BodiesRunOnce(threads, thieves, cs, acts, n - 1, j); }
      RunsGrow(cs[n - 1], acts[n - 1], j);
    }
  }

  // ---- exactly when ----------------------------------------------------------------------

  /** Every scheduled task is in exactly one place: on a deque, on its way there, in the
      hands of a thread that has taken it, or run; and no other task is in any. */
  ghost predicate OnePlace(c: Full) {
    forall x :: 0 <= x < |c.core.tasks| ==> TokenOk(Abs(c), x)
  }

  predicate Task0(v: nat, n: nat) { v == 0 || v < n }

  /** What the slots hold, and what thieves have read, are tasks, or the initial zeros. */
  ghost predicate EntriesIn(q: Q.State, n: nat) {
    && |q.entries| == Q.SIZE && (q.low > 0 ==> n > 0)
    && (forall i :: 0 <= i < Q.SIZE ==> Task0(q.entries[i], n))
    && (forall i :: 0 <= i < |q.thieves| && q.thieves[i].SawEntry? ==> Task0(q.thieves[i].v, n))
  }

  ghost predicate AllEntriesIn(c: Full) {
    forall d :: 0 <= d < |c.qs| ==> EntriesIn(c.qs[d], |c.core.tasks|)
  }

  lemma EntriesStart(threads: nat, thieves: nat)
    ensures AllEntriesIn(FullStart(threads, thieves))
  {
  }

  /** One access: what is written is a task, and so is what is taken. */
  lemma EntriesAccess(q: Q.State, b: Q.Step, n: nat, m: nat)
    requires EntriesIn(q, n) && n <= m && Q.Enabled(q, b) && (b.Write? ==> q.owner.x < n)
    requires Q.EventOf(q, b).TakeLast? || Q.EventOf(q, b).TakeFirst? ==> n > 0
    ensures EntriesIn(Q.Do(q, b), m)
  {
    hide Bytes.Slot, Bytes.Next, Bytes.Prev, Q.LooksEmpty, Q.LooksFull;
  }

  lemma MoreTasks(q: Q.State, n: nat, m: nat)
    requires EntriesIn(q, n) && n <= m
    ensures EntriesIn(q, m)
  {
  }

  lemma WantedIsTask(c: Full, d: nat)
    requires Good(c) && d < |c.qs| && InEnqueue(c.qs[d])
    ensures c.qs[d].owner.x < |c.core.tasks|
  {
    var who, x := c.serves[d].value, c.qs[d].owner.x;
    assert Wants(c.core, who, x);
    if who.Agent? { HandIsTask(c, who.k); }
  }

  lemma HandIsTask(c: Full, k: nat)
    requires Good(c) && k < |c.core.tasks|
    ensures c.core.tasks[k].hand.Put? ==> c.core.tasks[k].hand.x < |c.core.tasks|
  {
    AbsTask(c, k);
    hide CountInv, Hands;
    assert TaskOk(Abs(c).tasks[k], k, |Abs(c).tasks|);
  }

  lemma EntriesOn(c: Full, d: nat, b: Q.Step)
    requires OnOk(c, d, b) && AllEntriesIn(c)
    ensures AllEntriesIn(DoOn(c, d, b))
  {
    OnParts(c, d, b);
    OnRest(c, d, b);
    var n, e := |c.core.tasks|, Q.EventOf(c.qs[d], b);
    hide OnOk, Good, Q.Do, Q.EventOf, R.Fair, EntriesIn, DoOn, HandsIn, QsOk;
    if b.Write? { WantedIsTask(c, d); }
    if e.TakeLast? || e.TakeFirst? { TakenIsTask(c, d, b, e.x); }
    EntriesAccess(c.qs[d], b, n, n);
  }

  lemma EntriesCore(c: Full, act: Act)
    requires CanAct(c, act) && OnCore(act) && AllEntriesIn(c)
    ensures AllEntriesIn(DoAct(c, act))
  {
    OnCoreIs(c, act);
    hide CanAct, DoAct, AbsStep, WF, Do, Enabled, EntriesIn;
    if AbsStep(c, act).Some? { CoreDeques(c.core, AbsStep(c, act).value); }
    forall d | 0 <= d < |c.qs| ensures EntriesIn(c.qs[d], |DoAct(c, act).core.tasks|) {
      MoreTasks(c.qs[d], |c.core.tasks|, |DoAct(c, act).core.tasks|);
    }
  }

  lemma EntriesBegin(c: Full, d: nat, who: Server)
    requires CanAct(c, Begin(d, who)) && AllEntriesIn(c)
    ensures AllEntriesIn(DoAct(c, Begin(d, who)))
  {
    var n, b := |c.core.tasks|, Q.Enqueue(Wanted(c.core, who));
    EntriesAccess(c.qs[d], b, n, n);
    hide Q.Do, EntriesIn, Wants;
  }

  lemma EntriesStep(c: Full, act: Act)
    requires Good(c) && CanAct(c, act) && FairAct(c, act) && AllEntriesIn(c)
    ensures AllEntriesIn(DoAct(c, act))
  {
    hide Good, AllEntriesIn, Q.Do, Q.Enabled, R.Fair;
    if OnCore(act) {
      EntriesCore(c, act);
    } else if act.Begin? {
      EntriesBegin(c, act.d, act.who);
    } else {
      assert OnOk(c, act.d, act.b);
      EntriesOn(c, act.d, act.b);
    }
  }

  lemma {:induction false} EntriesRun(threads: nat, thieves: nat, cs: seq<Full>, acts: seq<Act>, n: nat)
    requires FullRun(threads, thieves, cs, acts) && FairTo(cs, acts, n) && n < |cs|
    ensures AllEntriesIn(cs[n])
  {
    hide Good, CanAct, DoAct, FairAct, AllEntriesIn, FullStart;
    if n == 0 {
      EntriesStart(threads, thieves);
    } else {
      EntriesRun(threads, thieves, cs, acts, n - 1);
      FullStep(threads, thieves, cs, acts, n - 1);
      var tr := Projects(threads, thieves, cs, acts, n - 1);
      EntriesStep(cs[n - 1], acts[n - 1]);
    }
  }

  lemma GoodPlaces(c: Full)
    requires Good(c)
    ensures OnePlace(c)
  {
    AbsLength(c);
    hide WF, BalanceOk, HandsOk, AwaitedOk, TokenOk, Abs;
  }

  lemma DequesUpdate(qs: seq<Q.State>, d: nat, q: Q.State)
    requires d < |qs|
    ensures Deques(qs[d := q]) == Deques(qs)[d := R.Contents(q)]
  {
    hide R.Contents;
  }

  /** The entry that an unfair swap takes has one place too many afterwards. */
  lemma UnfairPlaces(c: Full, d: nat, b: Q.Step)
    requires Good(c) && AllEntriesIn(c) && CanAct(c, On(d, b)) && !R.Fair(c.qs[d], b)
    ensures OnePlace(c) ==> !OnePlace(DoAct(c, On(d, b)))
  {
    var q, q' := c.qs[d], Q.Do(c.qs[d], b);
    var c' := c.(qs := c.qs[d := q']);
    UnfairFacts(c, d, b);
    var x := q.thieves[b.i].v;
    hide Good, AllEntriesIn, CanAct, R.Fair, Q.Do, Q.Enabled, R.Contents, R.InHands, R.Count, DoAct;
    HandsUpdate(c.qs, d, q', x);
    DequesUpdate(c.qs, d, q');
    QueuedUpdate(Deques(c.qs), d, R.Contents(q'), x);
    PlacesOf(c, x);
    PlacesOf(c', x);
  }

  lemma UnfairFacts(c: Full, d: nat, b: Q.Step)
    requires Good(c) && AllEntriesIn(c) && CanAct(c, On(d, b)) && !R.Fair(c.qs[d], b)
    ensures b.Swap? && Q.Enabled(c.qs[d], b) && |c.qs[d].entries| == Q.SIZE && d < |c.qs|
    ensures var q, v := c.qs[d], c.qs[d].thieves[b.i].v; var q' := Q.Do(q, b);
      && v < |c.core.tasks| && R.InHands(q', v) == R.InHands(q, v) + 1
      && Occurs(R.Contents(q'), v) == Occurs(R.Contents(q), v)
      && DoAct(c, On(d, b)) == c.(qs := c.qs[d := q'])
  {
    assert Q.Inv(c.qs[d]) && EntriesIn(c.qs[d], |c.core.tasks|);
    hide Good, Q.Inv, R.Contents, R.InHands;
    R.UnfairSwap(c.qs[d], b);
    R.LappedWins(c.qs[d], b);
    assert Task0(c.qs[d].thieves[b.i].v, |c.core.tasks|);
    hide Q.Do;
  }

  /** TokenOk, in the terms of the composed machine. */
  lemma PlacesOf(c: Full, x: nat)
    requires x < |c.core.tasks|
    ensures |Abs(c).tasks| == |c.core.tasks|
    ensures TokenOk(Abs(c), x) <==>
      Queued(Deques(c.qs), x) + Delivering(c.core.tasks, x) + (if c.core.pc == DepMachine.Putting && x == |c.core.tasks| - 1 then 1 else 0)
        + c.core.tasks[x].runs + Hands(c.qs, x) == if Rank(c.core.tasks[x].status) >= Rank(Scheduled) then 1 else 0
  {
    var s := Abs(c);
    assert PuttingBy(s.tasks, x) == PuttingBy(c.core.tasks, x);
    hide Sum, HandsBy, QueuedBy, PuttingBy, Deques;
  }

  lemma UnfairAct(c: Full, act: Act)
    requires CanAct(c, act) && !FairAct(c, act)
    ensures act.On? && act.d < |c.qs| && Q.Enabled(c.qs[act.d], act.b) && !R.Fair(c.qs[act.d], act.b) && act == On(act.d, act.b)
  {
    hide CanAct, R.Fair;
  }

  lemma FairMore(cs: seq<Full>, acts: seq<Act>, n: nat)
    requires FairTo(cs, acts, n) && n < |acts| && n < |cs| && FairAct(cs[n], acts[n])
    ensures FairTo(cs, acts, n + 1)
  {
    hide FairAct;
  }

  lemma RunLength(threads: nat, thieves: nat, cs: seq<Full>, acts: seq<Act>)
    requires FullRun(threads, thieves, cs, acts)
    ensures |cs| == |acts| + 1
  {
  }

  lemma NothingYet(cs: seq<Full>, acts: seq<Act>)
    ensures FairTo(cs, acts, 0)
  {
  }

  lemma {:induction false} PlacesAreFair(threads: nat, thieves: nat, cs: seq<Full>, acts: seq<Act>, n: nat)
    requires FullRun(threads, thieves, cs, acts) && n < |cs| && forall m :: 0 <= m <= n ==> OnePlace(cs[m])
    ensures FairTo(cs, acts, n)
  {
    hide *;
    RunLength(threads, thieves, cs, acts);
    NothingYet(cs, acts);
    if n > 0 {
      PlacesAreFair(threads, thieves, cs, acts, n - 1);
      var tr := Projects(threads, thieves, cs, acts, n - 1);
      EntriesRun(threads, thieves, cs, acts, n - 1);
      FullStep(threads, thieves, cs, acts, n - 1);
      var c, act := cs[n - 1], acts[n - 1];
      if !FairAct(c, act) {
        UnfairAct(c, act);
        UnfairPlaces(c, act.d, act.b);
      }
      FairMore(cs, acts, n - 1);
    }
  }

  /** Exactly when the byte counters do no harm to the tasks: in every run, each scheduled
      task is in exactly one place in all states up to n if and only if every swap of a
      thief before n was not fooled, or took what was first at that moment. */
  lemma {:induction false} OnePlaceIsExact(threads: nat, thieves: nat, cs: seq<Full>, acts: seq<Act>, n: nat)
    requires FullRun(threads, thieves, cs, acts) && n < |cs|
    ensures (forall m :: 0 <= m <= n ==> OnePlace(cs[m])) <==> FairTo(cs, acts, n)
  {
    hide Good, FullRun, OnePlace, FairAct;
    if FairTo(cs, acts, n) {
      forall m | 0 <= m <= n ensures OnePlace(cs[m]) {
        var tr := Projects(threads, thieves, cs, acts, m);
        GoodPlaces(cs[m]);
      }
    }
    if forall m :: 0 <= m <= n ==> OnePlace(cs[m]) { PlacesAreFair(threads, thieves, cs, acts, n); }
  }

  /** Fewer than 256 advances of `top` between the read and the swap of each thief. */
  ghost predicate BoundedStaleness(cs: seq<Full>, acts: seq<Act>, n: nat) {
    forall i :: 0 <= i < n && i < |acts| && i < |cs| && acts[i].On? && acts[i].b.Swap? && acts[i].d < |cs[i].qs|
                && Q.Enabled(cs[i].qs[acts[i].d], acts[i].b) ==>
      cs[i].qs[acts[i].d].low - cs[i].qs[acts[i].d].thieves[acts[i].b.i].at < 256
  }

  lemma FreshIsFair(c: Full, d: nat, b: Q.Step)
    requires Good(c) && d < |c.qs| && Q.Enabled(c.qs[d], b)
    requires b.Swap? ==> c.qs[d].low - c.qs[d].thieves[b.i].at < 256
    ensures R.Fair(c.qs[d], b)
  {
    assert Q.Inv(c.qs[d]);
    hide Good, Q.Inv, R.Contents;
    if b.Swap? { R.ThiefBehind(c.qs[d], b.i); }
  }

  /** The bound is enough. */
  lemma {:induction false} StalenessSuffices(threads: nat, thieves: nat, cs: seq<Full>, acts: seq<Act>, n: nat)
    requires FullRun(threads, thieves, cs, acts) && BoundedStaleness(cs, acts, n) && n < |cs|
    ensures FairTo(cs, acts, n)
  {
    if n > 0 {
      StalenessSuffices(threads, thieves, cs, acts, n - 1);
      var c, act := cs[n - 1], acts[n - 1];
      hide Good, R.Fair, Q.Enabled, FullRun;
      var tr := Projects(threads, thieves, cs, acts, n - 1);
      if act.On? && act.d < |c.qs| && Q.Enabled(c.qs[act.d], act.b) { FreshIsFair(c, act.d, act.b); }
    }
  }

  // ---- nothing in flight ---------------------------------------------------------------

  /** The owner is outside its calls, and no thief is about to return. */
  predicate AtRest(q: Q.State) {
    q.owner == Q.Resting && forall i :: 0 <= i < |q.thieves| ==> !q.thieves[i].Stolen?
  }

  lemma RestHands(qs: seq<Q.State>, x: nat)
    requires forall d :: 0 <= d < |qs| ==> AtRest(qs[d])
    ensures Hands(qs, x) == 0
  {
    forall d | 0 <= d < |qs| ensures HandsBy(qs, x)[d] == 0 { R.NoThiefHands(qs[d].thieves, |qs[d].thieves|, x); }
    SumZero(HandsBy(qs, x), |qs|);
  }

  /** With no call on a deque and nothing else in flight, an incomplete task means that
      some deque holds one. */
  lemma IdleMeansQueued(threads: nat, thieves: nat, cs: seq<Full>, acts: seq<Act>, n: nat) returns (d: nat)
    requires FullRun(threads, thieves, cs, acts) && FairTo(cs, acts, n) && n < |cs| && cs[n].core.pc == Idle
    requires forall e :: 0 <= e < |cs[n].qs| ==> AtRest(cs[n].qs[e])
    requires forall t <- cs[n].core.tasks :: t.status in {Created, Complete} || (t.status == Scheduled && t.runs == 0)
    requires exists t :: t in cs[n].core.tasks && t.status != Complete
    ensures d < |cs[n].qs| && R.Contents(cs[n].qs[d]) != []
  {
    var c := cs[n];
    var tr := Projects(threads, thieves, cs, acts, n);
    var steps := Projected(cs, acts, n);
    forall j: nat | j < |c.core.tasks| ensures j < |Abs(c).tasks| && Abs(c).tasks[j] == c.core.tasks[j] {
      AbsTask(c, j);
      RestHands(c.qs, j);
    }
    AbsLength(c);
    AbsDeque(c);
    hide Good, FullRun, FairTo, Abs, DepMachine.IsRun, AtRest, R.Contents;
    var t :| t in c.core.tasks && t.status != Complete;
    assert t in Abs(c).tasks;
    d := DepProgress.IdleMeansQueued(threads, tr, steps, |steps|);
  }

  lemma AbsDeque(c: Full)
    requires Good(c)
    ensures |Abs(c).deques| == |c.qs| && Abs(c).pc == c.core.pc && forall d :: 0 <= d < |c.qs| ==> Abs(c).deques[d] == R.Contents(c.qs[d])
  {
    hide WF, CountInv, R.Contents;
  }

  // ---- serial equivalence ----------------------------------------------------------------

  /** The composed machine, the blocks' contents, and what every body has seen. */
  datatype FullExec = FullExec(c: Full, store: Store, hists: seq<seq<Val>>)

  datatype FullMove = Does(act: Act) | OneAccess(k: nat)

  ghost predicate FullAllowed(prog: seq<Body>, x: FullExec, mv: FullMove) {
    match mv
    case OneAccess(k) => Running(x.c.core, k) && k < |prog| && k < |x.hists|
    case Does(act) =>
      && CanAct(x.c, act)
      && (act.Core? && act.a.Spawn? ==> |x.c.core.tasks| < |prog| && act.a.args == prog[|x.c.core.tasks|].args)
      && (act.Core? && act.a.End? ==> act.a.k < |prog| && act.a.k < |x.hists| && NextOp(prog[act.a.k], x.hists[act.a.k]) == Done)
  }

  ghost function FullMoved(prog: seq<Body>, x: FullExec, mv: FullMove): FullExec
    requires FullAllowed(prog, x, mv)
  {
    match mv
    case OneAccess(k) =>
      (match NextOp(prog[k], x.hists[k])
       case Done => x
       case Read(b) => x.(hists := x.hists[k := x.hists[k] + [x.store(b)]])
       case Write(b, v) => x.(hists := x.hists[k := x.hists[k] + [v]], store := Update(x.store, b, v)))
    case Does(act) => FullExec(DoAct(x.c, act), x.store, if act.Core? && act.a.Spawn? then x.hists + [[]] else x.hists)
  }

  ghost predicate IsFullExec(prog: seq<Body>, threads: nat, thieves: nat, m: Store, xs: seq<FullExec>, moves: seq<FullMove>) {
    && |xs| == |moves| + 1 && xs[0] == FullExec(FullStart(threads, thieves), m, [])
    && forall i :: 0 <= i < |moves| ==> FullAllowed(prog, xs[i], moves[i]) && xs[i + 1] == FullMoved(prog, xs[i], moves[i])
  }

  ghost function AbsExec(x: FullExec): Exec
    requires QsOk(x.c.qs)
  {
    Exec(Abs(x.c), x.store, x.hists)
  }

  /** What is assumed of a move: a swap is fair, and where an analysis ends, the task waits
      for every earlier one that it conflicts with. */
  ghost predicate Sound(x: FullExec, mv: FullMove) {
    && (mv.Does? ==> FairAct(x.c, mv.act))
    && (mv.Does? && AbsStep(x.c, mv.act) == Some(Finish) && QsOk(x.c.qs) ==> MoveChained(AbsExec(x), Sched(Finish)))
  }

  function AbsMove(x: FullExec, mv: FullMove): Option<Move> {
    match mv
    case OneAccess(k) => Some(Body1(k))
    case Does(act) => (match AbsStep(x.c, act) case None => None case Some(a) => Some(Sched(a)))
  }

  /** One move of the composed execution is one of the ideal one, or none. */
  ghost predicate MoveSimulates(prog: seq<Body>, x: FullExec, mv: FullMove) {
    && FullAllowed(prog, x, mv) && QsOk(x.c.qs) && Good(FullMoved(prog, x, mv).c) && QsOk(FullMoved(prog, x, mv).c.qs)
    && var x' := FullMoved(prog, x, mv);
       match AbsMove(x, mv)
       case None => AbsExec(x') == AbsExec(x)
       case Some(mv1) => MoveChained(AbsExec(x), mv1) && Allowed(prog, AbsExec(x), mv1) && AbsExec(x') == DoMove(prog, AbsExec(x), mv1)
  }

  lemma BodyRuns(c: Full, k: nat)
    requires Good(c) && Running(c.core, k)
    ensures QsOk(c.qs) && Running(Abs(c), k)
  {
    AbsTask(c, k);
    hide Good, Abs, QsOk;
    GoodQs(c);
  }

  /** A body's access is the same on the composed and on the ideal machine. */
  lemma BodyMove(prog: seq<Body>, x: FullExec, k: nat, c: State)
    requires FullAllowed(prog, x, OneAccess(k)) && Running(c, k)
    ensures var y := Exec(c, x.store, x.hists); var x' := FullMoved(prog, x, OneAccess(k));
      && Allowed(prog, y, Body1(k)) && x'.c == x.c && DoMove(prog, y, Body1(k)) == Exec(c, x'.store, x'.hists)
  {
    hide Running, Update, NextOp;
  }

  lemma BodySim(prog: seq<Body>, x: FullExec, k: nat)
    requires Good(x.c) && FullAllowed(prog, x, OneAccess(k))
    ensures MoveSimulates(prog, x, OneAccess(k))
  {
    assert Running(x.c.core, k);
    BodyRuns(x.c, k);
    BodyMove(prog, x, k, Abs(x.c));
    hide Good, Abs, QsOk, Running, Update, FullAllowed, FullMoved, Allowed, DoMove, NextOp;
  }

  ghost predicate StepShown(c: Full, act: Act) {
    && QsOk(c.qs) && CanAct(c, act) && QsOk(DoAct(c, act).qs)
    && match AbsStep(c, act)
       case None => !Notable(act) && Abs(DoAct(c, act)) == Abs(c)
       case Some(a) =>
         && Next(Abs(c), a, Abs(DoAct(c, act))) && |Abs(c).tasks| == |c.core.tasks|
         && (if a.Spawn? || a.End? then act == Core(a) else !Notable(act))
  }

  /** The acts that concern the bodies. */
  predicate Notable(act: Act) { act.Core? && (act.a.Spawn? || act.a.End?) }

  lemma NotableIs(c: Full, act: Act)
    requires CanAct(c, act)
    ensures match AbsStep(c, act)
            case None => !Notable(act)
            case Some(a) => if a.Spawn? || a.End? then act == Core(a) else !Notable(act)
  {
    if act.ReadTop? || act.SwapTop? { OpIsCore(c.core, act.who); }
    hide Q.EventOf, Q.LooksFull, OpOf, WF, Q.Do;
  }

  lemma ShowStep(c: Full, act: Act)
    requires Simulates(c, act)
    ensures StepShown(c, act) && Good(DoAct(c, act))
  {
    SimulatesIs(c, act);
    NotableIs(c, act);
    AbsLength(c);
    GoodQs(c);
    GoodQs(DoAct(c, act));
    hide *;
    assert StepShown(c, act) by { ShownIs(c, act); }
  }

  lemma ShownIs(c: Full, act: Act)
    requires QsOk(c.qs) && CanAct(c, act) && QsOk(DoAct(c, act).qs)
    requires match AbsStep(c, act)
             case None => !Notable(act) && Abs(DoAct(c, act)) == Abs(c)
             case Some(a) =>
               && Next(Abs(c), a, Abs(DoAct(c, act))) && |Abs(c).tasks| == |c.core.tasks|
               && (if a.Spawn? || a.End? then act == Core(a) else !Notable(act))
    ensures StepShown(c, act)
  {
  }

  /** An act that is a step, as a move. */
  lemma ActMove(prog: seq<Body>, x: FullExec, act: Act, a: Step)
    requires FullAllowed(prog, x, Does(act)) && StepShown(x.c, act) && AbsStep(x.c, act) == Some(a)
    ensures Allowed(prog, AbsExec(x), Sched(a))
    ensures AbsExec(FullMoved(prog, x, Does(act))) == DoMove(prog, AbsExec(x), Sched(a))
  {
    hide Abs, QsOk, CanAct, DoAct, AbsStep, WF, Enabled, Do;
  }

  lemma ActKeeps(x: FullExec, act: Act, a: Step)
    requires StepShown(x.c, act) && AbsStep(x.c, act) == Some(a) && Sound(x, Does(act))
    ensures MoveChained(AbsExec(x), Sched(a))
  {
    hide Abs, QsOk, CanAct, DoAct, AbsStep, WF, Enabled, Next, Chained, FairAct;
  }

  lemma ActSim(prog: seq<Body>, x: FullExec, act: Act)
    requires Good(x.c) && FullAllowed(prog, x, Does(act)) && Sound(x, Does(act))
    ensures MoveSimulates(prog, x, Does(act))
  {
    assert CanAct(x.c, act) && FairAct(x.c, act);
    hide Good, Abs, QsOk, CanAct, DoAct, AbsStep, Simulates, FairAct, Sound, StepShown, Allowed, DoMove, MoveChained;
    StepSimulates(x.c, act);
    ShowStep(x.c, act);
    ShownQs(x.c, act);
    var a := AbsStep(x.c, act);
    if a.Some? {
      ActMove(prog, x, act, a.value);
      ActKeeps(x, act, a.value);
    } else {
      ShownNone(x.c, act);
    }
  }

  lemma ShownQs(c: Full, act: Act)
    requires StepShown(c, act)
    ensures QsOk(c.qs) && CanAct(c, act) && QsOk(DoAct(c, act).qs)
  {
  }

  lemma ShownNone(c: Full, act: Act)
    requires StepShown(c, act) && AbsStep(c, act) == None
    ensures !Notable(act) && Abs(DoAct(c, act)) == Abs(c)
  {
  }

  lemma MoveSim(prog: seq<Body>, x: FullExec, mv: FullMove)
    requires Good(x.c) && FullAllowed(prog, x, mv) && Sound(x, mv)
    ensures MoveSimulates(prog, x, mv)
  {
    hide Good, FullAllowed, Sound, MoveSimulates;
    if mv.OneAccess? { BodySim(prog, x, mv.k); } else { ActSim(prog, x, mv.act); }
  }

  lemma MoreMoves(prog: seq<Body>, threads: nat, m: Store, ys: seq<Exec>, moves: seq<Move>, mv: Move)
    requires IsParallelRun(prog, threads, m, ys, moves) && CallsChained(ys, moves)
    requires Allowed(prog, ys[|moves|], mv) && MoveChained(ys[|moves|], mv)
    ensures IsParallelRun(prog, threads, m, ys + [DoMove(prog, ys[|moves|], mv)], moves + [mv])
    ensures CallsChained(ys + [DoMove(prog, ys[|moves|], mv)], moves + [mv])
  {
    hide Allowed, DoMove, MoveChained, Init;
    var y := DoMove(prog, ys[|moves|], mv);
    var ys', moves' := ys + [y], moves + [mv];
    forall i | 0 <= i < |moves'| ensures Allowed(prog, ys'[i], moves'[i]) && ys'[i + 1] == DoMove(prog, ys'[i], moves'[i]) && MoveChained(ys'[i], moves'[i]) {
      if i < |moves| { assert Allowed(prog, ys[i], moves[i]) && ys[i + 1] == DoMove(prog, ys[i], moves[i]) && MoveChained(ys[i], moves[i]); }
    }
  }

  ghost predicate AllSound(xs: seq<FullExec>, moves: seq<FullMove>) {
    forall i :: 0 <= i < |moves| && i < |xs| ==> Sound(xs[i], moves[i])
  }

  lemma FullExecStep(prog: seq<Body>, threads: nat, thieves: nat, m: Store, xs: seq<FullExec>, moves: seq<FullMove>, n: nat)
    requires IsFullExec(prog, threads, thieves, m, xs, moves) && n < |moves| && AllSound(xs, moves)
    ensures |xs| == |moves| + 1 && FullAllowed(prog, xs[n], moves[n]) && xs[n + 1] == FullMoved(prog, xs[n], moves[n]) && Sound(xs[n], moves[n])
  {
    hide FullAllowed, FullMoved, Sound;
  }

  lemma {:induction false} ExecProjects(prog: seq<Body>, threads: nat, thieves: nat, m: Store, xs: seq<FullExec>, moves: seq<FullMove>, n: nat)
      returns (ys: seq<Exec>, mvs: seq<Move>)
    requires IsFullExec(prog, threads, thieves, m, xs, moves) && AllSound(xs, moves) && n < |xs|
    ensures Good(xs[n].c) && IsParallelRun(prog, threads, m, ys, mvs) && CallsChained(ys, mvs)
    ensures |ys| == |mvs| + 1 && ys[|mvs|] == AbsExec(xs[n])
  {
    if n == 0 {
      StartGood(threads, thieves);
      ys, mvs := [AbsExec(xs[0])], [];
    } else {
      hide Good, FullAllowed, FullMoved, Sound, Abs, AbsMove, Allowed, DoMove, MoveChained, Init, FullStart, IsParallelRun, CallsChained;
      ys, mvs := ExecProjects(prog, threads, thieves, m, xs, moves, n - 1);
      FullExecStep(prog, threads, thieves, m, xs, moves, n - 1);
      MoveSim(prog, xs[n - 1], moves[n - 1]);
      GoodQs(xs[n - 1].c);
      GoodQs(xs[n].c);
      var mv := AbsMove(xs[n - 1], moves[n - 1]);
      if mv.Some? {
        MoreMoves(prog, threads, m, ys, mvs, mv.value);
        ys, mvs := ys + [AbsExec(xs[n])], mvs + [mv.value];
      }
    }
  }

  lemma AllReleased(c: Full)
    requires Good(c) && forall t <- c.core.tasks :: Released(t)
    ensures |Abs(c).tasks| == |c.core.tasks| && forall t <- Abs(c).tasks :: Released(t)
  {
    AbsLength(c);
    forall j | 0 <= j < |c.core.tasks| ensures Released(Abs(c).tasks[j]) {
      AbsTask(c, j);
      assert c.core.tasks[j] in c.core.tasks;
    }
    hide Good, Abs;
  }

  /** Serial equivalence over the deques of src/queue.c: when all tasks have been spawned
      and released, the store is the serial one and every body has seen what it sees in
      the serial run. */
  lemma {:induction false} SerialEquivalence(prog: seq<Body>, threads: nat, thieves: nat, m: Store, xs: seq<FullExec>, moves: seq<FullMove>)
    requires WellFormed(prog) && IsFullExec(prog, threads, thieves, m, xs, moves) && AllSound(xs, moves)
    requires |xs[|xs| - 1].c.core.tasks| == |prog| && forall t <- xs[|xs| - 1].c.core.tasks :: Released(t)
    ensures forall b :: xs[|xs| - 1].store(b) == SerialStore(prog, m, |prog|)(b)
    ensures |xs[|xs| - 1].hists| == |prog|
    ensures forall k :: 0 <= k < |prog| ==> xs[|xs| - 1].hists[k] == DepSerial.Full(prog[k], SerialStore(prog, m, k)).0
  {
    var n := |xs| - 1;
    var ys, mvs := ExecProjects(prog, threads, thieves, m, xs, moves, n);
    AllReleased(xs[n].c);
    hide Good, IsFullExec, AllSound, Abs, IsParallelRun, CallsChained, WellFormed, Released;
    DepSerial.SerialEquivalence(prog, threads, m, ys, mvs);
  }

  // ---- argument lists whose reads are safe -------------------------------------------------

  /** Swaps are fair, and no reader is dropped that must still be waited for. */
  ghost predicate KeepsReaders(x: FullExec, mv: FullMove) {
    && (mv.Does? ==> FairAct(x.c, mv.act))
    && (mv.Does? && AbsStep(x.c, mv.act) == Some(Analyse) && QsOk(x.c.qs) ==> MoveKeepsReaders(AbsExec(x), Sched(Analyse)))
  }

  ghost predicate AllKeepReaders(xs: seq<FullExec>, moves: seq<FullMove>) {
    forall i :: 0 <= i < |moves| && i < |xs| ==> KeepsReaders(xs[i], moves[i])
  }

  ghost predicate RawSafeHere(c: Full) {
    Good(c) && QsOk(c.qs) && RawSafeInv(Abs(c))
  }

  lemma ActRawSafe(prog: seq<Body>, x: FullExec, act: Act, a: Step)
    requires RawSafeHere(x.c) && RawSafeBodies(prog) && FullAllowed(prog, x, Does(act)) && KeepsReaders(x, Does(act))
    requires StepShown(x.c, act) && AbsStep(x.c, act) == Some(a)
    ensures RawSafeInv(Abs(DoAct(x.c, act))) && (a == Finish ==> Sound(x, Does(act)))
  {
    hide *;
    HereParts(x.c);
    ShownSome(x.c, act, a);
    ActKeepsReaders(x, act, a);
    ActArgs(prog, x, act, a);
    FairIs(x, act);
    RawSafeStep(Abs(x.c), a);
    if a == Finish {
      FinishChained(Abs(x.c));
      FinishSound(x, act);
    }
  }

  lemma HereParts(c: Full)
    requires RawSafeHere(c)
    ensures QsOk(c.qs) && RawSafeInv(Abs(c))
  {
    hide Good, RawSafeInv, QsOk, Abs;
  }

  lemma ShownSome(c: Full, act: Act, a: Step)
    requires StepShown(c, act) && AbsStep(c, act) == Some(a)
    ensures QsOk(c.qs) && CanAct(c, act) && QsOk(DoAct(c, act).qs)
    ensures WF(Abs(c)) && Enabled(Abs(c), a) && Abs(DoAct(c, act)) == Do(Abs(c), a)
  {
    hide QsOk, CanAct, DoAct, AbsStep, Abs, WF, Enabled, Do;
  }

  lemma FinishSound(x: FullExec, act: Act)
    requires FairAct(x.c, act) && QsOk(x.c.qs) && Abs(x.c).tasks != [] && Chained(Abs(x.c), |Abs(x.c).tasks| - 1)
    requires CanAct(x.c, act)
    ensures Sound(x, Does(act))
  {
    hide FairAct, AbsStep, QsOk, Chained, Abs, CanAct;
  }

  lemma FairIs(x: FullExec, act: Act)
    requires KeepsReaders(x, Does(act))
    ensures FairAct(x.c, act)
  {
    hide FairAct, AbsStep, QsOk, MoveKeepsReaders;
  }

  lemma ActArgs(prog: seq<Body>, x: FullExec, act: Act, a: Step)
    requires RawSafeBodies(prog) && FullAllowed(prog, x, Does(act)) && StepShown(x.c, act) && AbsStep(x.c, act) == Some(a)
    ensures a.Spawn? ==> RawSafeArgs(a.args)
  {
    hide QsOk, CanAct, DoAct, AbsStep, RawSafeArgs, Abs, Next;
  }

  lemma ActKeepsReaders(x: FullExec, act: Act, a: Step)
    requires KeepsReaders(x, Does(act)) && StepShown(x.c, act) && AbsStep(x.c, act) == Some(a)
    ensures a == Analyse ==> ReadersKept(Abs(x.c))
  {
    hide Abs, QsOk, CanAct, DoAct, AbsStep, WF, Next, ReadersKept, FairAct;
  }

  lemma DoesRawSafe(prog: seq<Body>, x: FullExec, act: Act)
    requires RawSafeHere(x.c) && RawSafeBodies(prog) && FullAllowed(prog, x, Does(act)) && KeepsReaders(x, Does(act))
    ensures Sound(x, Does(act)) && CanAct(x.c, act) && RawSafeHere(DoAct(x.c, act))
  {
    DoesCan(prog, x, act);
    hide *;
    HereParts(x.c);
    FairIs(x, act);
    StepSimulates(x.c, act);
    ShowStep(x.c, act);
    ShownQs(x.c, act);
    match AbsStep(x.c, act) {
      case None =>
        ShownNone(x.c, act);
        SilentSound(x, act);
      case Some(a) =>
        ActRawSafe(prog, x, act, a);
        if a != Finish { SilentSound(x, act); }
    }
    HereIs(DoAct(x.c, act));
  }

  lemma DoesCan(prog: seq<Body>, x: FullExec, act: Act)
    requires RawSafeHere(x.c) && FullAllowed(prog, x, Does(act))
    ensures CanAct(x.c, act) && Good(x.c)
  {
    hide Good, CanAct, QsOk, RawSafeInv;
  }

  lemma SilentSound(x: FullExec, act: Act)
    requires FairAct(x.c, act) && AbsStep(x.c, act) != Some(Finish)
    ensures Sound(x, Does(act))
  {
    hide FairAct, AbsStep;
  }

  lemma HereIs(c: Full)
    requires Good(c) && QsOk(c.qs) && RawSafeInv(Abs(c))
    ensures RawSafeHere(c)
  {
  }

  lemma MoveRawSafe(prog: seq<Body>, x: FullExec, mv: FullMove)
    requires RawSafeHere(x.c) && RawSafeBodies(prog) && FullAllowed(prog, x, mv) && KeepsReaders(x, mv)
    ensures Sound(x, mv) && RawSafeHere(FullMoved(prog, x, mv).c)
  {
    hide RawSafeHere, Running, NextOp, CanAct, DoAct, FairAct, AbsStep, KeepsReaders;
    if mv.Does? { DoesRawSafe(prog, x, mv.act); }
  }

  lemma RawSafeStart(threads: nat, thieves: nat)
    ensures RawSafeHere(FullStart(threads, thieves))
  {
    StartGood(threads, thieves);
    RawSafeInit(threads);
    hide Good, RawSafeInv, Abs, QsOk, FullStart;
    GoodQs(FullStart(threads, thieves));
  }

  lemma {:induction false} AllRawSafe(prog: seq<Body>, threads: nat, thieves: nat, m: Store, xs: seq<FullExec>, moves: seq<FullMove>, n: nat)
    requires RawSafeBodies(prog) && IsFullExec(prog, threads, thieves, m, xs, moves) && AllKeepReaders(xs, moves) && n < |xs|
    ensures RawSafeHere(xs[n].c) && (n < |moves| ==> Sound(xs[n], moves[n]))
  {
    hide RawSafeHere, FullAllowed, FullMoved, KeepsReaders, Sound, RawSafeBodies, FullStart;
    if n == 0 {
      RawSafeStart(threads, thieves);
    } else {
      AllRawSafe(prog, threads, thieves, m, xs, moves, n - 1);
      assert FullAllowed(prog, xs[n - 1], moves[n - 1]) && xs[n] == FullMoved(prog, xs[n - 1], moves[n - 1]);
      MoveRawSafe(prog, xs[n - 1], moves[n - 1]);
    }
    if n < |moves| {
      assert FullAllowed(prog, xs[n], moves[n]);
      MoveRawSafe(prog, xs[n], moves[n]);
    }
  }

  /** The same for RawSafe argument lists, when no reader is dropped that must still be
      waited for. */
  lemma {:induction false} RawSafeSerial(prog: seq<Body>, threads: nat, thieves: nat, m: Store, xs: seq<FullExec>, moves: seq<FullMove>)
    requires WellFormed(prog) && RawSafeBodies(prog) && IsFullExec(prog, threads, thieves, m, xs, moves) && AllKeepReaders(xs, moves)
    requires |xs[|xs| - 1].c.core.tasks| == |prog| && forall t <- xs[|xs| - 1].c.core.tasks :: Released(t)
    ensures forall b :: xs[|xs| - 1].store(b) == SerialStore(prog, m, |prog|)(b)
    ensures |xs[|xs| - 1].hists| == |prog|
    ensures forall k :: 0 <= k < |prog| ==> xs[|xs| - 1].hists[k] == DepSerial.Full(prog[k], SerialStore(prog, m, k)).0
  {
    hide WellFormed, RawSafeBodies, IsFullExec, AllKeepReaders, Sound, Released;
    forall n | 0 <= n < |moves| && n < |xs| ensures Sound(xs[n], moves[n]) {
      AllRawSafe(prog, threads, thieves, m, xs, moves, n);
    }
    SerialEquivalence(prog, threads, thieves, m, xs, moves);
  }
}
