/** The `to_notify` stack of src/stack.c: any number of pushers, one thread that locks
    it once and then pops what it took.  One step per access to `top`; nodes are not
    reused. */
module ClosableStack {

  datatype Ptr = Null | Locked | At(node: nat)

  datatype Node = Node(task: nat, next: Ptr)

  /** stack_push: not begun, about to swap its node in, or returned `ok`. */
  datatype Pusher = Begin(x: nat) | Trying(x: nat, node: nat, seen: Ptr) | Pushed(x: nat, node: nat) | Refused(x: nat)

  /** stack_lock, then stack_pop as often as it takes. */
  datatype Closer = Waiting | Locking(seen: Ptr) | Draining(list: Ptr, out: seq<nat>)

  /** `order` lists the pushers that have succeeded, as they did, `spine` their nodes. */
  datatype State = State(
    nodes: seq<Node>, top: Ptr, pushers: seq<Pusher>, closer: Closer, order: seq<nat>, spine: seq<nat>)

  datatype Step = Read(i: nat) | Swap(i: nat) | LockRead | LockSwap | Pop

  predicate Enabled(s: State, a: Step) {
    match a
    case Read(i) => i < |s.pushers| && s.pushers[i].Begin?
    case Swap(i) => i < |s.pushers| && s.pushers[i].Trying? && s.pushers[i].node < |s.nodes|
    case LockRead => s.closer == Waiting
    case LockSwap => s.closer.Locking?
    case Pop => s.closer.Draining? && s.closer.list.At? && s.closer.list.node < |s.nodes|
  }

  function DoRead(s: State, i: nat): State
    requires Enabled(s, Read(i))
  {
    var x := s.pushers[i].x;
    if s.top == Locked then s.(pushers := s.pushers[i := Refused(x)])
    else s.(nodes := s.nodes + [Node(x, s.top)], pushers := s.pushers[i := Trying(x, |s.nodes|, s.top)])
  }

  function DoSwap(s: State, i: nat): State
    requires Enabled(s, Swap(i))
  {
    var p := s.pushers[i];
    if s.top == p.seen then
      s.(top := At(p.node), pushers := s.pushers[i := Pushed(p.x, p.node)], order := s.order + [i], spine := s.spine + [p.node])
    else if s.top == Locked then s.(pushers := s.pushers[i := Refused(p.x)])
    else s.(nodes := s.nodes[p.node := s.nodes[p.node].(next := s.top)],
            pushers := s.pushers[i := p.(seen := s.top)])
  }

  function DoCloser(s: State, a: Step): State
    requires Enabled(s, a) && !a.Read? && !a.Swap?
  {
    match a
    case LockRead => s.(closer := Locking(s.top))
    case LockSwap =>
      if s.top == s.closer.seen then s.(top := Locked, closer := Draining(s.top, []))
      else s.(closer := Locking(s.top))
    case Pop =>
      var n := s.nodes[s.closer.list.node];
      s.(closer := Draining(n.next, s.closer.out + [n.task]))
  }

  function Do(s: State, a: Step): State
    requires Enabled(s, a)
  {
    if a.Read? then DoRead(s, a.i) else if a.Swap? then DoSwap(s, a.i) else DoCloser(s, a)
  }

  // ---- the invariant --------------------------------------------------------

  /** Exactly the pushers that have returned 1 are in the order, each once. */
  ghost predicate OrderOk(ps: seq<Pusher>, order: seq<nat>, spine: seq<nat>) {
    && |spine| == |order|
    && (forall k :: 0 <= k < |order| ==> order[k] < |ps| && ps[order[k]].Pushed? && ps[order[k]].node == spine[k])
    && (forall k, l :: 0 <= k < l < |order| ==> order[k] != order[l])
    && (forall i :: 0 <= i < |ps| && ps[i].Pushed? ==> i in order)
  }

  predicate HasNode(p: Pusher) { p.Trying? || p.Pushed? }

  ghost predicate OwnNode(nodes: seq<Node>, p: Pusher) {
    && (HasNode(p) ==> p.node < |nodes| && nodes[p.node].task == p.x)
    && (p.Trying? ==> p.seen != Locked && nodes[p.node].next == p.seen)
  }

  /** Every node belongs to one pusher and carries its task. */
  ghost predicate NodesOk(nodes: seq<Node>, ps: seq<Pusher>) {
    && (forall i :: 0 <= i < |ps| ==> OwnNode(nodes, ps[i]))
    && (forall i, j :: 0 <= i < |ps| && 0 <= j < |ps| && i != j && HasNode(ps[i]) && HasNode(ps[j]) ==> ps[i].node != ps[j].node)
  }

  /** The pointer to the n-th node from the bottom. */
  function Link(spine: seq<nat>, n: nat): Ptr
    requires n <= |spine|
  {
    if n == 0 then Null else At(spine[n - 1])
  }

  /** The published nodes form one list, latest push first. */
  ghost predicate ChainOk(nodes: seq<Node>, spine: seq<nat>) {
    forall k :: 0 <= k < |spine| ==> spine[k] < |nodes| && nodes[spine[k]].next == Link(spine, k)
  }

  /** The tasks of the last d pushes, latest first. */
  function Latest(nodes: seq<Node>, spine: seq<nat>, d: nat): (r: seq<nat>)
    requires d <= |spine| && forall k :: 0 <= k < |spine| ==> spine[k] < |nodes|
    ensures |r| == d
  {
    seq(d, k requires 0 <= k < d => nodes[spine[|spine| - 1 - k]].task)
  }

  ghost predicate EndsOk(s: State)
    requires ChainOk(s.nodes, s.spine)
  {
    && (s.top == Locked <==> s.closer.Draining?)
    && (s.top != Locked ==> s.top == Link(s.spine, |s.spine|))
    && (s.closer.Locking? ==> s.closer.seen != Locked)
    && (s.closer.Draining? ==>
          && |s.closer.out| <= |s.spine| && s.closer.out == Latest(s.nodes, s.spine, |s.closer.out|)
          && s.closer.list == Link(s.spine, |s.spine| - |s.closer.out|))
  }

  /** A push returns 0 only after the close. */
  ghost predicate RefusalsOk(ps: seq<Pusher>, top: Ptr) {
    forall i :: 0 <= i < |ps| && ps[i].Refused? ==> top == Locked
  }

  ghost predicate Inv(s: State) {
    && OrderOk(s.pushers, s.order, s.spine) && NodesOk(s.nodes, s.pushers) && ChainOk(s.nodes, s.spine)
    && EndsOk(s) && RefusalsOk(s.pushers, s.top)
  }

  // ---- every step keeps it --------------------------------------------------

  lemma OrderUpdate(ps: seq<Pusher>, order: seq<nat>, spine: seq<nat>, i: nat, p: Pusher)
    requires OrderOk(ps, order, spine) && i < |ps| && !ps[i].Pushed? && !p.Pushed?
    ensures OrderOk(ps[i := p], order, spine)
  {
  }

  lemma OrderAppend(ps: seq<Pusher>, order: seq<nat>, spine: seq<nat>, i: nat, p: Pusher)
    requires OrderOk(ps, order, spine) && i < |ps| && !ps[i].Pushed? && p.Pushed?
    ensures OrderOk(ps[i := p], order + [i], spine + [p.node])
  {
    var order' := order + [i];
    assert order'[|order|] == i && i !in order;
    forall j | 0 <= j < |ps| && ps[i := p][j].Pushed? ensures j in order' {
      if j != i { assert j in order; }
    }
  }

  /** A node of a pusher that is still trying is not in the list. */
  lemma NotPublished(s: State, i: nat)
    requires OrderOk(s.pushers, s.order, s.spine) && NodesOk(s.nodes, s.pushers)
    requires i < |s.pushers| && s.pushers[i].Trying?
    ensures forall k :: 0 <= k < |s.spine| ==> s.spine[k] != s.pushers[i].node
  {
    forall k | 0 <= k < |s.spine| ensures s.spine[k] != s.pushers[i].node {
      assert HasNode(s.pushers[s.order[k]]);
    }
  }

  lemma NodesUpdate(nodes: seq<Node>, nodes': seq<Node>, ps: seq<Pusher>, i: nat, p: Pusher)
    requires NodesOk(nodes, ps) && i < |ps| && |nodes| <= |nodes'| && OwnNode(nodes', p)
    requires HasNode(p) ==> p.node >= |nodes| || (HasNode(ps[i]) && p.node == ps[i].node)
    requires forall n :: 0 <= n < |nodes| && !(HasNode(p) && p.node == n) ==> nodes'[n] == nodes[n]
    ensures NodesOk(nodes', ps[i := p])
  {
    var ps' := ps[i := p];
    forall j | 0 <= j < |ps'| ensures OwnNode(nodes', ps'[j]) { assert OwnNode(nodes, ps[j]); }
    forall j, l | 0 <= j < |ps'| && 0 <= l < |ps'| && j != l && HasNode(ps'[j]) && HasNode(ps'[l])
      ensures ps'[j].node != ps'[l].node
    {
      assert OwnNode(nodes, ps[j]) && OwnNode(nodes, ps[l]);
    }
  }

  lemma SameList(nodes: seq<Node>, nodes': seq<Node>, spine: seq<nat>, d: nat)
    requires ChainOk(nodes, spine) && |nodes| <= |nodes'| && forall k :: 0 <= k < |spine| ==> nodes'[spine[k]] == nodes[spine[k]]
    requires d <= |spine|
    ensures ChainOk(nodes', spine) && Latest(nodes', spine, d) == Latest(nodes, spine, d)
  {
    hide Link;
  }

  lemma ReadShape(s: State, i: nat)
    requires Enabled(s, Read(i))
    ensures var s', p := DoRead(s, i), DoRead(s, i).pushers[i];
      && s' == s.(nodes := s'.nodes, pushers := s.pushers[i := p]) && s.nodes <= s'.nodes && !s.pushers[i].Pushed? && !p.Pushed?
      && OwnNode(s'.nodes, p) && (HasNode(p) ==> p.node == |s.nodes|) && (p.Refused? ==> s.top == Locked)
  {
  }

  lemma ReadKeeps(s: State, i: nat)
    requires Inv(s) && Enabled(s, Read(i))
    ensures Inv(DoRead(s, i))
  {
    var s', d := DoRead(s, i), if s.closer.Draining? then |s.closer.out| else 0;
    InvParts(s);
    hide *;
    SpineIn(s.nodes, s.spine);
    ReadShape(s, i);
    OrderUpdate(s.pushers, s.order, s.spine, i, s'.pushers[i]);
    NodesUpdate(s.nodes, s'.nodes, s.pushers, i, s'.pushers[i]);
    SameList(s.nodes, s'.nodes, s.spine, d);
    EndsSame(s, s');
    RefusalsUpdate(s.pushers, s.top, i, s'.pushers[i]);
    InvIs(s');
  }

  lemma InvParts(s: State)
    requires Inv(s)
    ensures OrderOk(s.pushers, s.order, s.spine) && NodesOk(s.nodes, s.pushers) && ChainOk(s.nodes, s.spine)
    ensures EndsOk(s) && RefusalsOk(s.pushers, s.top) && (s.closer.Draining? ==> |s.closer.out| <= |s.spine|)
  {
    hide OrderOk, NodesOk, ChainOk, RefusalsOk, Link, Latest;
  }

  lemma InvIs(s: State)
    requires OrderOk(s.pushers, s.order, s.spine) && NodesOk(s.nodes, s.pushers) && ChainOk(s.nodes, s.spine)
    requires EndsOk(s) && RefusalsOk(s.pushers, s.top)
    ensures Inv(s)
  {
  }

  lemma EndsSame(s: State, s': State)
    requires ChainOk(s.nodes, s.spine) && EndsOk(s) && ChainOk(s'.nodes, s.spine)
    requires s'.top == s.top && s'.closer == s.closer && s'.spine == s.spine
    requires forall k :: 0 <= k < |s.spine| ==> s.spine[k] < |s.nodes| && s.spine[k] < |s'.nodes|
    requires s.closer.Draining? && |s.closer.out| <= |s.spine| ==>
               Latest(s'.nodes, s.spine, |s.closer.out|) == Latest(s.nodes, s.spine, |s.closer.out|)
    ensures EndsOk(s')
  {
    hide ChainOk, Link, Latest;
  }

  lemma RefusalsUpdate(ps: seq<Pusher>, top: Ptr, i: nat, p: Pusher)
    requires RefusalsOk(ps, top) && i < |ps| && (p.Refused? ==> top == Locked)
    ensures RefusalsOk(ps[i := p], top)
  {
  }

  lemma LinkGrows(spine: seq<nat>, n: nat)
    ensures forall k :: 0 <= k <= |spine| ==> Link(spine + [n], k) == Link(spine, k)
    ensures Link(spine + [n], |spine| + 1) == At(n)
  {
  }

  lemma LinkIs(spine: seq<nat>, n: nat)
    requires n <= |spine|
    ensures Link(spine, n) != Locked && (Link(spine, n).At? <==> n > 0)
    ensures n > 0 ==> Link(spine, n) == At(spine[n - 1])
  {
  }

  lemma ChainAppend(nodes: seq<Node>, spine: seq<nat>, n: nat)
    requires ChainOk(nodes, spine) && n < |nodes| && nodes[n].next == Link(spine, |spine|)
    ensures ChainOk(nodes, spine + [n]) && Link(spine + [n], |spine| + 1) == At(n)
  {
    LinkGrows(spine, n);
    hide Link;
    forall k | 0 <= k < |spine + [n]| ensures (spine + [n])[k] < |nodes| && nodes[(spine + [n])[k]].next == Link(spine + [n], k) {
      if k < |spine| { assert (spine + [n])[k] == spine[k]; }
    }
  }

  lemma WinKeeps(s: State, i: nat)
    requires Inv(s) && Enabled(s, Swap(i)) && s.top == s.pushers[i].seen
    ensures Inv(DoSwap(s, i))
  {
    var s', p := DoSwap(s, i), s.pushers[i];
    OwnNodeAt(s, i);
    hide OrderOk, NodesOk, Latest, ChainOk, Link;
    NodesUpdate(s.nodes, s.nodes, s.pushers, i, Pushed(p.x, p.node));
    OrderAppend(s.pushers, s.order, s.spine, i, Pushed(p.x, p.node));
    ChainAppend(s.nodes, s.spine, p.node);
  }

  lemma RefuseKeeps(s: State, i: nat)
    requires Inv(s) && Enabled(s, Swap(i)) && s.top != s.pushers[i].seen && s.top == Locked
    ensures Inv(DoSwap(s, i))
  {
    hide OrderOk, NodesOk, Latest, ChainOk, Link, OwnNode;
    var p := Refused(s.pushers[i].x);
    assert OwnNode(s.nodes, p) by { NoNode(s.nodes, p); }
    NodesUpdate(s.nodes, s.nodes, s.pushers, i, p);
    OrderUpdate(s.pushers, s.order, s.spine, i, p);
  }

  lemma NoNode(nodes: seq<Node>, p: Pusher)
    requires !HasNode(p)
    ensures OwnNode(nodes, p)
  {
  }

  lemma RetryKeeps(s: State, i: nat)
    requires Inv(s) && Enabled(s, Swap(i)) && s.top != s.pushers[i].seen && s.top != Locked
    ensures Inv(DoSwap(s, i))
  {
    var s', p := DoSwap(s, i), s.pushers[i];
    OwnNodeAt(s, i);
    assert OwnNode(s'.nodes, s'.pushers[i]);
    NotPublished(s, i);
    SpineIn(s.nodes, s.spine);
    hide OrderOk, NodesOk, Latest, ChainOk, Link, OwnNode;
    NodesUpdate(s.nodes, s'.nodes, s.pushers, i, s'.pushers[i]);
    OrderUpdate(s.pushers, s.order, s.spine, i, s'.pushers[i]);
    SameList(s.nodes, s'.nodes, s.spine, 0);
  }

  lemma OwnNodeAt(s: State, i: nat)
    requires NodesOk(s.nodes, s.pushers) && i < |s.pushers|
    ensures OwnNode(s.nodes, s.pushers[i])
  {
  }

  lemma SpineIn(nodes: seq<Node>, spine: seq<nat>)
    requires ChainOk(nodes, spine)
    ensures forall k :: 0 <= k < |spine| ==> spine[k] < |nodes|
  {
    hide Link;
  }

  lemma NoneLatest(nodes: seq<Node>, spine: seq<nat>)
    requires forall k :: 0 <= k < |spine| ==> spine[k] < |nodes|
    ensures Latest(nodes, spine, 0) == []
  {
  }

  lemma LockedRefuse(ps: seq<Pusher>)
    ensures RefusalsOk(ps, Locked)
  {
  }

  lemma LockKeeps(s: State, a: Step)
    requires Inv(s) && Enabled(s, a) && (a.LockRead? || a.LockSwap?)
    ensures Inv(DoCloser(s, a))
  {
    hide OrderOk, NodesOk, Latest, ChainOk, Link, RefusalsOk;
    SpineIn(s.nodes, s.spine);
    LockedRefuse(s.pushers);
    NoneLatest(s.nodes, s.spine);
    LinkIs(s.spine, |s.spine|);
  }

  lemma PopKeeps(s: State)
    requires Inv(s) && Enabled(s, Pop)
    ensures Inv(DoCloser(s, Pop))
  {
    hide OrderOk, NodesOk, Latest, ChainOk, Link;
    PopFacts(s);
    LinkIs(s.spine, |s.spine| - |s.closer.out|);
  }

  lemma LatestOneMore(nodes: seq<Node>, spine: seq<nat>, d: nat)
    requires d < |spine| && forall k :: 0 <= k < |spine| ==> spine[k] < |nodes|
    ensures Latest(nodes, spine, d + 1) == Latest(nodes, spine, d) + [nodes[spine[|spine| - 1 - d]].task]
  {
  }

  lemma ChainLinks(nodes: seq<Node>, spine: seq<nat>)
    requires ChainOk(nodes, spine)
    ensures forall k :: 0 <= k < |spine| ==> spine[k] < |nodes| && nodes[spine[k]].next == Link(spine, k)
  {
    hide Link;
  }

  lemma PopFacts(s: State)
    requires Inv(s) && Enabled(s, Pop)
    ensures |s.closer.out| < |s.spine|
    ensures var n := s.nodes[s.closer.list.node];
      var d := |s.closer.out| + 1;
      n.next == Link(s.spine, |s.spine| - d) && s.closer.out + [n.task] == Latest(s.nodes, s.spine, d)
  {
    hide OrderOk, NodesOk, Latest, ChainOk, Link;
    SpineIn(s.nodes, s.spine);
    ChainLinks(s.nodes, s.spine);
    var d := |s.closer.out|;
    LinkIs(s.spine, |s.spine| - d);
    assert s.closer.list == At(s.spine[|s.spine| - 1 - d]);
    LatestOneMore(s.nodes, s.spine, d);
  }

  lemma StepKeeps(s: State, a: Step)
    requires Inv(s) && Enabled(s, a)
    ensures Inv(Do(s, a))
  {
    hide Inv;
    if a.Read? { ReadKeeps(s, a.i); }
    else if a.Swap? && s.top == s.pushers[a.i].seen { WinKeeps(s, a.i); }
    else if a.Swap? && s.top == Locked { RefuseKeeps(s, a.i); }
    else if a.Swap? { RetryKeeps(s, a.i); }
    else if a.Pop? { PopKeeps(s); }
    else { LockKeeps(s, a); }
  }

  // ---- whole runs -----------------------------------------------------------

  ghost predicate IsInit(s: State) {
    s.nodes == [] && s.top == Null && s.closer == Waiting && s.order == [] && s.spine == []
    && forall p <- s.pushers :: p.Begin?
  }

  ghost predicate IsRun(tr: seq<State>, steps: seq<Step>) {
    && |tr| == |steps| + 1 && IsInit(tr[0])
    && forall i :: 0 <= i < |steps| ==> Took(tr[i], steps[i], tr[i + 1])
  }

  ghost predicate Took(s: State, a: Step, s': State) { Enabled(s, a) && s' == Do(s, a) }

  lemma InitInv(s: State)
    requires IsInit(s)
    ensures Inv(s)
  {
    assert forall i :: 0 <= i < |s.pushers| ==> s.pushers[i] in s.pushers;
  }

  lemma {:induction false} RunKeeps(tr: seq<State>, steps: seq<Step>, n: nat)
    requires IsRun(tr, steps) && n < |tr|
    ensures Inv(tr[n])
  {
    hide Inv, Do, Enabled, IsInit;
    if n == 0 {
      InitInv(tr[0]);
    } else {
      RunKeeps(tr, steps, n - 1);
      assert Took(tr[n - 1], steps[n - 1], tr[n]);
      StepKeeps(tr[n - 1], steps[n - 1]);
    }
  }

  /** The tasks of the successful pushes, latest first. */
  function Reversed(s: State): (r: seq<nat>)
    requires forall k :: 0 <= k < |s.order| ==> s.order[k] < |s.pushers|
    ensures |r| == |s.order|
  {
    seq(|s.order|, k requires 0 <= k < |s.order| => s.pushers[s.order[|s.order| - 1 - k]].x)
  }

  lemma OrderFacts(ps: seq<Pusher>, order: seq<nat>, spine: seq<nat>)
    requires OrderOk(ps, order, spine)
    ensures |spine| == |order| && forall k :: 0 <= k < |order| ==> order[k] < |ps|
    ensures forall k, l :: 0 <= k < l < |order| ==> order[k] != order[l]
    ensures forall i :: 0 <= i < |ps| ==> (i in order <==> ps[i].Pushed?)
  {
  }

  lemma TaskAt(s: State, k: nat)
    requires OrderOk(s.pushers, s.order, s.spine) && NodesOk(s.nodes, s.pushers) && k < |s.order|
    ensures k < |s.spine| && s.spine[k] < |s.nodes| && s.order[k] < |s.pushers|
    ensures s.nodes[s.spine[k]].task == s.pushers[s.order[k]].x
  {
    OwnNodeAt(s, s.order[k]);
  }

  lemma DrainedAll(s: State)
    requires Inv(s) && s.closer.Draining? && s.closer.list == Null
    ensures ChainOk(s.nodes, s.spine) && |s.closer.out| == |s.spine|
    ensures forall k :: 0 <= k < |s.spine| ==> s.spine[k] < |s.nodes|
    ensures s.closer.out == Latest(s.nodes, s.spine, |s.spine|)
  {
    hide OrderOk, NodesOk, Latest, ChainOk, Link, RefusalsOk;
    SpineIn(s.nodes, s.spine);
    LinkIs(s.spine, |s.spine| - |s.closer.out|);
  }

  /** Draining yields the successful pushes in the reverse of the order in which they
      took effect: a push that returned 1 is there exactly once, one that returned 0
      is not, and no push succeeds after the close. */
  lemma DrainReverses(tr: seq<State>, steps: seq<Step>, n: nat)
    requires IsRun(tr, steps) && n < |tr| && tr[n].closer.Draining? && tr[n].closer.list == Null
    ensures forall k :: 0 <= k < |tr[n].order| ==> tr[n].order[k] < |tr[n].pushers|
    ensures tr[n].closer.out == Reversed(tr[n])
    ensures forall k, l :: 0 <= k < l < |tr[n].order| ==> tr[n].order[k] != tr[n].order[l]
    ensures forall i :: 0 <= i < |tr[n].pushers| ==> (i in tr[n].order <==> tr[n].pushers[i].Pushed?)
  {
    hide OrderOk, NodesOk, ChainOk, Link, IsRun, EndsOk, RefusalsOk;
    RunKeeps(tr, steps, n);
    var s := tr[n];
    OrderFacts(s.pushers, s.order, s.spine);
    DrainedAll(s);
    forall k | 0 <= k < |s.order| ensures s.closer.out[k] == Reversed(s)[k] { TaskAt(s, |s.order| - 1 - k); }
  }

  /** stack_push returns 0 only when the stack is closed, and then it stays closed and
      nothing more gets in. */
  lemma {:induction false} ClosedForGood(tr: seq<State>, steps: seq<Step>, m: nat, n: nat, i: nat)
    requires IsRun(tr, steps) && m <= n < |tr|
    requires i < |tr[m].pushers| && (tr[m].top == Locked || tr[m].pushers[i].Refused?)
    ensures tr[m].top == Locked && tr[n].top == Locked && tr[n].order == tr[m].order
    decreases n
  {
    hide Inv, Enabled, Do, IsInit;
    RunKeeps(tr, steps, m);
    RefusedMeansLocked(tr[m], i);
    if m < n {
      ClosedForGood(tr, steps, m, n - 1, i);
      RunKeeps(tr, steps, n - 1);
      assert Took(tr[n - 1], steps[n - 1], tr[n]);
      StaysClosed(tr[n - 1], steps[n - 1]);
    }
  }

  lemma RefusedMeansLocked(s: State, i: nat)
    requires Inv(s) && i < |s.pushers|
    ensures s.pushers[i].Refused? ==> s.top == Locked
  {
    hide OrderOk, NodesOk, ChainOk, EndsOk;
  }

  lemma StaysClosed(s: State, a: Step)
    requires Inv(s) && Enabled(s, a) && s.top == Locked
    ensures Do(s, a).top == Locked && Do(s, a).order == s.order
  {
    if a.Swap? { OwnNodeAt(s, a.i); }
    hide OrderOk, NodesOk, ChainOk, Link;
  }

  /** The assertions of stack_lock: its compare-and-swap never meets a locked top. */
  lemma LockedOnce(tr: seq<State>, steps: seq<Step>, n: nat)
    requires IsRun(tr, steps) && n < |steps| && (steps[n] == LockRead || steps[n] == LockSwap)
    ensures tr[n].top != Locked
  {
    RunKeeps(tr, steps, n);
    assert Took(tr[n], steps[n], tr[n + 1]);
  }

  // ---- the linked nodes -----------------------------------------------------

  class StackNode {
    const task: nat
    var next: StackNode?

    constructor (task: nat, next: StackNode?)
      ensures this.task == task && this.next == next
    {
      this.task := task;
      this.next := next;
    }
  }

  /** What another thread may do to the stack between two accesses of this one. */
  datatype Rival = Push(x: nat) | Close

  /** The tasks that a stack has received, and whether it is closed. */
  datatype Held = Held(tasks: seq<nat>, locked: bool)

  /** What an operation of another thread does to it. */
  function PlayOne(h: Held, r: Rival): Held {
    if h.locked then h
    else match r
      case Push(x) => h.(tasks := h.tasks + [x])
      case Close => h.(locked := true)
  }

  /** The first n operations of a burst. */
  function PlayBurst(h: Held, burst: seq<Rival>, n: nat): Held
    requires n <= |burst|
  {
    if n == 0 then h else PlayOne(PlayBurst(h, burst, n - 1), burst[n - 1])
  }

  /** The first n bursts. */
  function Played(h: Held, bursts: seq<seq<Rival>>, n: nat): Held
    requires n <= |bursts|
  {
    if n == 0 then h else PlayBurst(Played(h, bursts, n - 1), bursts[n - 1], |bursts[n - 1]|)
  }

  lemma {:induction false} BurstOpen(h: Held, burst: seq<Rival>, n: nat)
    requires n <= |burst| && Close !in burst && !h.locked
    ensures !PlayBurst(h, burst, n).locked
  {
    if n > 0 {
      BurstOpen(h, burst, n - 1);
      assert burst[n - 1] in burst;
    }
  }

  /** A stack that nobody closes stays open. */
  lemma {:induction false} StaysOpen(h: Held, bursts: seq<seq<Rival>>, n: nat)
    requires n <= |bursts| && !h.locked && forall b <- bursts :: Close !in b
    ensures !Played(h, bursts, n).locked
  {
    hide PlayBurst;
    if n > 0 {
      StaysOpen(h, bursts, n - 1);
      BurstOpen(Played(h, bursts, n - 1), bursts[n - 1], |bursts[n - 1]|);
    }
  }

  class Stack {
    var top: StackNode?
    var locked: bool               // top is STACK_LOCKED
    var schedule: seq<seq<Rival>>  // what the others do, burst by burst
    ghost var spine: seq<StackNode>
    ghost var pushed: seq<nat>     // the tasks pushed, in order

    ghost predicate Linked(nodes: seq<StackNode>, k: nat)
      requires k < |nodes|
      reads nodes
    {
      nodes[k].next == if k == 0 then null else nodes[k - 1]
    }

    /** From node n down, the list holds the first |nodes| pushes. */
    ghost predicate Lists(n: StackNode?, nodes: seq<StackNode>, tasks: seq<nat>)
      reads nodes
    {
      && |nodes| == |tasks|
      && (n == null <==> nodes == [])
      && (nodes != [] ==> n == nodes[|nodes| - 1])
      && (forall k :: 0 <= k < |nodes| ==> nodes[k].task == tasks[k])
      && (forall k :: 0 <= k < |nodes| ==> Linked(nodes, k))
      && (forall k, l :: 0 <= k < l < |nodes| ==> nodes[k] != nodes[l])
    }

    /** The node pushed last. */
    ghost function Newest(): StackNode?
      reads this`spine
    {
      if spine == [] then null else spine[|spine| - 1]
    }

    ghost predicate Valid()
      reads this, spine
    {
      Lists(Newest(), spine, pushed) && (!locked ==> top == Newest())
    }

    constructor (schedule: seq<seq<Rival>>)
      ensures Valid() && !locked && pushed == [] && this.schedule == schedule && spine == []
    {
      top, locked, spine, pushed := null, false, [], [];
      this.schedule := schedule;
    }

    /** The compare-and-swap that makes a node the new top. */
    method SwapIn(node: StackNode)
      requires Valid() && !locked && node.next == top && node !in spine
      modifies this`top, this`spine, this`pushed
      ensures Valid() && top == node && spine == old(spine) + [node] && pushed == old(pushed) + [node.task]
    {
      top, spine, pushed := node, spine + [node], pushed + [node.task];
      var n := |spine| - 1;
      assert Linked(spine, n);
      forall k | 0 <= k < |spine| ensures Linked(spine, k) {
        if k < n { assert old(Linked(spine, k)); }
      }
    }

    ghost function View(): Held
      reads this
    {
      Held(pushed, locked)
    }

    /** The others' operations of the next burst, as they take effect on top. */
    method Others()
      requires Valid()
      modifies this
      ensures Valid() && old(spine) <= spine && forall n <- spine :: n in old(spine) || fresh(n)
      ensures old(pushed) <= pushed && (pushed == old(pushed) ==> top == old(top))
      ensures if old(schedule) == [] then schedule == [] && View() == old(View())
              else schedule == old(schedule)[1..] && View() == PlayBurst(old(View()), old(schedule)[0], |old(schedule)[0]|)
    {
      if schedule == [] { return; }
      var burst := schedule[0];
      schedule := schedule[1..];
      for i := 0 to |burst|
        invariant Valid() && old(spine) <= spine && forall n <- spine :: n in old(spine) || fresh(n)
        invariant old(pushed) <= pushed && (pushed == old(pushed) ==> top == old(top))
        invariant View() == PlayBurst(old(View()), burst, i) && schedule == old(schedule)[1..]
      {
        TakeEffect(burst[i]);
      }
    }

    method TakeEffect(r: Rival)
      requires Valid()
      modifies this
      ensures Valid() && old(spine) <= spine && forall n <- spine :: n in old(spine) || fresh(n)
      ensures View() == PlayOne(old(View()), r) && schedule == old(schedule)
      ensures old(pushed) <= pushed && (pushed == old(pushed) ==> top == old(top))
    {
      if !locked {
        if r.Push? {
          var node := new StackNode(r.x, top);
          SwapIn(node);
        } else {
          locked := true;
        }
      }
    }

    /** Since the schedule was sch and the stack h, the others have done what they do in the
        bursts that are gone, and after that this thread has pushed `own`. */
    ghost predicate Since(sch: seq<seq<Rival>>, h: Held, own: seq<nat>)
      reads this
    {
      && |schedule| <= |sch| && schedule == sch[|sch| - |schedule|..]
      && exists tasks :: pushed == tasks + own && Held(tasks, locked) == Played(h, sch, |sch| - |schedule|)
    }

    /** Only the others have acted, and have left the stack closed or not. */
    ghost predicate Playing(sch: seq<seq<Rival>>, h: Held, closed: bool)
      reads this`schedule, this`pushed
    {
      |schedule| <= |sch| && schedule == sch[|sch| - |schedule|..] && Held(pushed, closed) == Played(h, sch, |sch| - |schedule|)
    }

    lemma {:induction false} PlayingIs(sch: seq<seq<Rival>>, h: Held)
      requires Playing(sch, h, locked)
      ensures |schedule| <= |sch| && schedule == sch[|sch| - |schedule|..] && Held(pushed, locked) == Played(h, sch, |sch| - |schedule|)
    {
    }

    lemma {:induction false} SinceIs(sch: seq<seq<Rival>>, h: Held, tasks: seq<nat>, own: seq<nat>)
      requires |schedule| <= |sch| && schedule == sch[|sch| - |schedule|..]
      requires pushed == tasks + own && Held(tasks, locked) == Played(h, sch, |sch| - |schedule|)
      ensures Since(sch, h, own)
    {
    }

    lemma NoneOwn(sch: seq<seq<Rival>>, h: Held)
      requires Playing(sch, h, locked)
      ensures Since(sch, h, [])
    {
      assert pushed == pushed + [];
    }

    method OthersNext(ghost sch: seq<seq<Rival>>, ghost h: Held)
      requires Valid() && Playing(sch, h, locked)
      modifies this
      ensures Valid() && Playing(sch, h, locked) && old(spine) <= spine && forall n <- spine :: n in old(spine) || fresh(n)
      ensures pushed == old(pushed) ==> top == old(top)
      ensures if old(schedule) == [] then schedule == [] && pushed == old(pushed) && locked == old(locked) else schedule == old(schedule)[1..]
    {
      hide Valid, PlayBurst;
      Others();
    }

    lemma NotYet()
      ensures Playing(schedule, View(), locked)
    {
    }

    /** True, and the task is on the stack, pushed last, by this call and once; or false, and
        the stack is closed.  All else is what the others have done in the bursts played. */
    method TryPush(x: nat) returns (ok: bool)
      requires Valid()
      modifies this
      ensures Valid() && old(spine) <= spine && ok == !locked
      ensures Since(old(schedule), old(View()), if ok then [x] else [])
    {
      hide *;
      NotYet();
      ghost var sch, h := schedule, View();
      OthersNext(sch, h);
      if locked {
        NoneOwn(sch, h);
        return false;
      }
      var seen := top;
      var node := new StackNode(x, seen);
      ok := PushLoop(node, seen, sch, h);
    }

    /** The compare-and-swap loop. */
    method PushLoop(node: StackNode, first: StackNode?, ghost sch: seq<seq<Rival>>, ghost h: Held) returns (ok: bool)
      requires Valid() && Playing(sch, h, locked) && node !in spine && node.next == first
      modifies this, node`next
      ensures Valid() && old(spine) <= spine && ok == !locked
      ensures Since(sch, h, if ok then [node.task] else [])
    {
      hide *;
      var seen := first;
      OthersNext(sch, h);
      while locked || top != seen
        invariant Valid() && old(spine) <= spine && node.next == seen && node !in spine && Playing(sch, h, locked)
        decreases |schedule| + (if locked || top != seen then 1 else 0)
      {
        if locked {
          NoneOwn(sch, h);
          return false;
        }
        seen := top;
        node.next := seen;
        OthersNext(sch, h);
      }
      PlayingIs(sch, h);
      ghost var others := pushed;
      SwapIn(node);
      SinceIs(sch, h, others, [node.task]);
      ok := true;
    }

    lemma ViewIs()
      ensures View() == Held(pushed, locked)
    {
    }

    /** The compare-and-swap loop of stack_lock; nobody else may close the stack.  The list
        taken holds what was pushed before and what the others have pushed meanwhile. */
    method Lock() returns (list: StackNode?)
      requires Valid() && !locked && forall b <- schedule :: Close !in b
      modifies this
      ensures Valid() && locked && old(spine) <= spine && list == Newest() && Lists(list, spine, pushed)
      ensures Playing(old(schedule), old(View()), false)
    {
      hide *;
      NotYet();
      ViewIs();
      ghost var sch, h := schedule, View();
      OthersNext(sch, h);
      StillOpen(sch, h);
      var seen := top;
      OthersNext(sch, h);
      StillOpen(sch, h);
      while top != seen
        invariant Valid() && !locked && old(spine) <= spine && Playing(sch, h, locked)
        decreases |schedule| + (if top != seen then 1 else 0)
      {
        seen := top;
        OthersNext(sch, h);
        StillOpen(sch, h);
        ViewIs();
      }
      TopIsNewest();
      CloseTop();
      list := seen;
    }

    /** The swap of stack_lock. */
    method CloseTop()
      requires Valid() && !locked
      modifies this`locked
      ensures Valid() && locked && Lists(Newest(), spine, pushed)
    {
      locked := true;
    }

    lemma StillOpen(sch: seq<seq<Rival>>, h: Held)
      requires Playing(sch, h, locked) && !h.locked && forall b <- sch :: Close !in b
      ensures !locked
    {
      StaysOpen(h, sch, |sch| - |schedule|);
    }

    lemma TopIsNewest()
      requires Valid() && !locked
      ensures top == Newest()
    {
    }

    /** stack_pop until it returns NULL: the tasks come out in the reverse order. */
    method Drain(list: StackNode?) returns (out: seq<nat>)
      requires Lists(list, spine, pushed)
      ensures |out| == |pushed| && forall k :: 0 <= k < |out| ==> out[k] == pushed[|pushed| - 1 - k]
    {
      out := [];
      var node := list;
      while node != null
        invariant |out| <= |pushed| && forall k :: 0 <= k < |out| ==> out[k] == pushed[|pushed| - 1 - k]
        invariant if |out| == |spine| then node == null else node == spine[|spine| - 1 - |out|]
        decreases |spine| - |out|
      {
        ghost var k := |spine| - 1 - |out|;
        assert Linked(spine, k);
        out := out + [node.task];
        node := node.next;
      }
    }
  }
}
