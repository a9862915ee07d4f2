/** The shared page pool of src/pages.c on its single-page path: free lists linked
    through the page headers, with their counters, and fresh blocks from the system. */
module PagePool {
  import opened Layout

  datatype Option<+T> = None | Some(value: T)

  const LISTS := 16 // MAXLISTS

  /** The list that starts at `head` visits exactly s. */
  ghost predicate Chain(next: map<nat, Option<nat>>, head: Option<nat>, s: seq<nat>)
    decreases |s|
  {
    if s == [] then head == None
    else head == Some(s[0]) && s[0] in next && Chain(next, next[s[0]], s[1..])
  }

  lemma {:induction false} ChainFrame(next: map<nat, Option<nat>>, next': map<nat, Option<nat>>, head: Option<nat>, s: seq<nat>)
    requires Chain(next, head, s) && forall p <- s :: p in next && p in next' ==> next'[p] == next[p]
    requires forall p <- s :: p in next'
    ensures Chain(next', head, s)
    decreases |s|
  {
    if s != [] {
      assert s[0] in s && forall p <- s[1..] :: p in s;
      ChainFrame(next, next', next[s[0]], s[1..]);
    }
  }

  ghost predicate NoRepeats(s: seq<nat>) {
    forall i, j :: 0 <= i < j < |s| ==> s[i] != s[j]
  }

  /** first, first + 1, ..., the way add_single_pages leaves them: last one on top. */
  function Pushed(first: nat, n: nat): (s: seq<nat>)
    ensures |s| == n
  {
    if n == 0 then [] else [first + n - 1] + Pushed(first, n - 1)
  }

  lemma {:induction false} PushedPages(first: nat, n: nat)
    ensures forall p :: p in Pushed(first, n) <==> first <= p < first + n
    ensures NoRepeats(Pushed(first, n))
  {
    if n > 0 {
      PushedPages(first, n - 1);
      RepeatsFront(first + n - 1, Pushed(first, n - 1));
    }
  }

  lemma {:induction false} PushedStep(first: nat, k: nat, rest: seq<nat>)
    ensures Pushed(first, 0) + rest == rest
    ensures [first + k] + (Pushed(first, k) + rest) == Pushed(first, k + 1) + rest
  {
  }

  lemma {:induction false} PushedTop(first: nat, n: nat)
    requires n > 0
    ensures Pushed(first, n) == [first + n - 1] + Pushed(first, n - 1)
  {
  }

  lemma RepeatsFront(p: nat, s: seq<nat>)
    requires NoRepeats(s) && p !in s
    ensures NoRepeats([p] + s)
  {
  }

  /** Where a page is: on a free list, or owned by a region. */
  datatype Place = Free(list: nat) | Owned(region: nat)

  /** Everything on list i is recorded as being there. */
  ghost predicate Placed(s: seq<nat>, place: map<nat, Place>, where: Place) {
    NoRepeats(s) && forall p <- s :: p in place && place[p] == where
  }

  ghost predicate ListOk(next: map<nat, Option<nat>>, head: Option<nat>, count: nat, s: seq<nat>, place: map<nat, Place>, i: nat) {
    Chain(next, head, s) && count == |s| && Placed(s, place, Free(i))
  }

  ghost predicate ListsOk(next: map<nat, Option<nat>>, heads: seq<Option<nat>>, counts: seq<nat>,
                          free: seq<seq<nat>>, place: map<nat, Place>)
  {
    && |heads| == LISTS && |counts| == LISTS && |free| == LISTS
    && forall i :: 0 <= i < LISTS ==> ListOk(next, heads[i], counts[i], free[i], place, i)
  }

  /** One list changes, and the pages on the others keep their links and places. */
  lemma ListsUpdate(next: map<nat, Option<nat>>, heads: seq<Option<nat>>, counts: seq<nat>, free: seq<seq<nat>>,
                    place: map<nat, Place>, next': map<nat, Option<nat>>, place': map<nat, Place>,
                    i: nat, h: Option<nat>, c: nat, s: seq<nat>)
    requires ListsOk(next, heads, counts, free, place) && i < LISTS && ListOk(next', h, c, s, place', i)
    requires forall p :: p in place && place[p].Free? && place[p] != Free(i) ==>
               p in place' && place'[p] == place[p] && (p in next ==> p in next' && next'[p] == next[p])
    ensures ListsOk(next', heads[i := h], counts[i := c], free[i := s], place')
  {
    forall j | 0 <= j < LISTS && j != i ensures ListOk(next', heads[j], counts[j], free[j], place', j) {
      assert ListOk(next, heads[j], counts[j], free[j], place, j);
      OneListKept(next, heads[j], counts[j], free[j], place, next', place', j);
    }
  }

  lemma OneListKept(next: map<nat, Option<nat>>, h: Option<nat>, c: nat, s: seq<nat>, place: map<nat, Place>,
                    next': map<nat, Option<nat>>, place': map<nat, Place>, j: nat)
    requires ListOk(next, h, c, s, place, j)
    requires forall p <- s :: p in place' && place'[p] == place[p] && (p in next ==> p in next' && next'[p] == next[p])
    ensures ListOk(next', h, c, s, place', j)
  {
    ChainIn(next, h, s);
    ChainFrame(next, next', h, s);
    hide Chain;
  }

  lemma {:induction false} ChainIn(next: map<nat, Option<nat>>, head: Option<nat>, s: seq<nat>)
    requires Chain(next, head, s)
    ensures forall p <- s :: p in next
    decreases |s|
  {
    if s != [] { ChainIn(next, next[s[0]], s[1..]); }
  }

  /** Pages per request of alloc_new(n): region_get_mem asks for at least K groups, and
      for one page more when malloc happens to return an aligned block. */
  function RequestPages(n: nat, group: nat, lucky: bool): (r: nat)
    ensures r >= n
  {
    (if n + K < group * K then group * K else n) + (if lucky then 1 else 0)
  }

  /** PAGE_GROUP_SIZE: the pages that go on a list at a time. */
  function Group(total: nat): (n: nat) { 1 + total / 128 }

  /** The first page of a group that comes from a fresh block at `from`: the last ones of it. */
  function GroupStart(total: nat, from: nat, lucky: bool): nat {
    from + RequestPages(Group(total), Group(total), lucky) - Group(total)
  }

  /** The page that alloc_single_page takes off list i, ... */
  function TakenPage(free: seq<seq<nat>>, total: nat, i: nat, from: nat, lucky: bool): nat
    requires i < |free|
  {
    if free[i] != [] then free[i][0] else GroupStart(total, from, lucky) + Group(total) - 1
  }

  /** ... and what it leaves: the others of a new group stay on the list. */
  function FreeLeft(free: seq<seq<nat>>, total: nat, i: nat, from: nat, lucky: bool): (r: seq<seq<nat>>)
    requires i < |free|
    ensures |r| == |free|
  {
    free[i := if free[i] != [] then free[i][1..] else Pushed(GroupStart(total, from, lucky), Group(total) - 1)]
  }

  function TotalLeft(free: seq<seq<nat>>, total: nat, i: nat, lucky: bool): nat
    requires i < |free|
  {
    if free[i] != [] then total else total + RequestPages(Group(total), Group(total), lucky)
  }

  class Pool {
    var next: map<nat, Option<nat>>   // page->next
    var heads: seq<Option<nat>>       // single_pages[i].pages
    var counts: seq<nat>              // single_pages[i].page_count
    var total: nat                    // total_page_count
    ghost var free: seq<seq<nat>>
    ghost var place: map<nat, Place>

    ghost predicate Valid()
      reads this
    {
      ListsOk(next, heads, counts, free, place)
    }

    constructor ()
      ensures Valid() && place == map[] && next == map[] && free == seq(LISTS, _ => []) && total == 0
    {
      next, total, place := map[], 0, map[];
      heads := seq(LISTS, _ => None);
      counts := seq(LISTS, _ => 0);
      free := seq(LISTS, _ => []);
    }

    /** The lists are right if list i is taken to have the length it really has. */
    ghost predicate ValidBut(i: nat)
      reads this
    {
      i < LISTS && |counts| == LISTS && |free| == LISTS && ListsOk(next, heads, counts[i := |free[i]|], free, place)
    }

    /** One page, which is on no list, becomes the head of list i. */
    method Link(p: nat, i: nat)
      requires ValidBut(i) && p !in place
      modifies this`next, this`heads, this`free, this`place
      ensures ValidBut(i) && free == old(free)[i := [p] + old(free)[i]]
      ensures place == old(place)[p := Free(i)]
      ensures forall q :: q != p && q in old(next) ==> q in next && next[q] == old(next)[q]
    {
      ghost var s := free[i];
      assert ListOk(next, heads[i], |s|, s, place, i);
      LinkOne(next, heads[i], s, place, p, i);
      next := next[p := heads[i]];
      heads := heads[i := Some(p)];
      ListsUpdate(old(next), old(heads), counts[i := |s|], free, place, next, place[p := Free(i)], i, Some(p), |s| + 1, [p] + s);
      free := free[i := [p] + s];
      place := place[p := Free(i)];
      assert counts[i := |s|][i := |s| + 1] == counts[i := |s| + 1];
    }

    lemma LinkOne(nx: map<nat, Option<nat>>, h: Option<nat>, s: seq<nat>, pl: map<nat, Place>, p: nat, i: nat)
      requires ListOk(nx, h, |s|, s, pl, i) && p !in pl
      ensures ListOk(nx[p := h], Some(p), |s| + 1, [p] + s, pl[p := Free(i)], i)
    {
      assert p !in s;
      ChainIn(nx, h, s);
      ChainFrame(nx, nx[p := h], h, s);
      RepeatsFront(p, s);
      assert ([p] + s)[1..] == s;
    }

    /** add_single_pages: n >= 1 fresh pages go on list i. */
    method AddSinglePages(first: nat, n: nat, i: nat)
      requires Valid() && i < LISTS && n > 0 && forall p :: first <= p < first + n ==> p !in place
      modifies this`next, this`heads, this`counts, this`free, this`place
      ensures Valid() && free == old(free)[i := Pushed(first, n) + old(free)[i]]
      ensures forall p :: p in place <==> p in old(place) || first <= p < first + n
      ensures forall p :: p in place ==> place[p] == if p in old(place) then old(place)[p] else Free(i)
      ensures forall p :: p in old(place) && p in old(next) ==> p in next && next[p] == old(next)[p]
    {
      CountIs(i);
      hide ListsOk, Pushed, ValidBut;
      counts := counts[i := counts[i] + n];
      assert counts[i := |free[i]|] == old(counts);
      assert ValidBut(i) by { ButOne(i); }
      LinkPages(first, n, i);
      assert free[i] == Pushed(first, n) + old(free)[i];
      AllAgain(i);
    }

    /** The loop of add_single_pages. */
    method LinkPages(first: nat, n: nat, i: nat)
      requires ValidBut(i) && i < LISTS && i < |free| && n > 0 && forall p :: first <= p < first + n ==> p !in place
      modifies this`next, this`heads, this`free, this`place
      ensures ValidBut(i) && i < |old(free)| && free == old(free)[i := Pushed(first, n) + old(free)[i]]
      ensures forall p :: p in place <==> p in old(place) || first <= p < first + n
      ensures forall p :: p in place ==> place[p] == if p in old(place) then old(place)[p] else Free(i)
      ensures forall p :: p in old(place) && p in old(next) ==> p in next && next[p] == old(next)[p]
    {
      hide ListsOk, Pushed, ValidBut;
      var base, left := first, n;
      PushedStep(first, 0, free[i]);
      assert free[i := free[i]] == free;
      while true
        invariant first <= base < first + n && left == first + n - base
        invariant ValidBut(i)
        invariant free == old(free)[i := Pushed(first, base - first) + old(free)[i]]
        invariant forall p :: p in place <==> p in old(place) || first <= p < base
        invariant forall p :: p in place ==> place[p] == if p in old(place) then old(place)[p] else Free(i)
        invariant forall p :: p in old(place) && p in old(next) ==> p in next && next[p] == old(next)[p]
        decreases left
      {
        ghost var k := base - first;
        Link(base, i);
        PushedStep(first, k, old(free)[i]);
        left := left - 1;
        if left == 0 { break; }
        base := base + 1;
      }
    }

    lemma ButOne(i: nat)
      requires i < LISTS && |counts| == LISTS && |free| == LISTS && ListsOk(next, heads, counts[i := |free[i]|], free, place)
      ensures ValidBut(i)
    {
    }

    lemma AllAgain(i: nat)
      requires ValidBut(i) && i < |counts| && i < |free| && counts[i] == |free[i]|
      ensures Valid()
    {
      assert counts[i := |free[i]|] == counts;
    }

    lemma CountIs(i: nat)
      requires Valid() && i < LISTS
      ensures |counts| == LISTS && |free| == LISTS && |heads| == LISTS && counts[i] == |free[i]|
      ensures counts[i := |free[i]|] == counts
    {
      assert ListOk(next, heads[i], counts[i], free[i], place, i);
    }

    /** alloc_new: a block from the system, of which the last n pages are returned.
        `from` is the page where the block starts, which malloc chooses. */
    method AllocNew(n: nat, from: nat, lucky: bool) returns (first: nat)
      requires n > 0
      modifies this`total
      ensures from <= first && first + n == from + RequestPages(n, Group(old(total)), lucky)
      ensures total == old(total) + RequestPages(n, Group(old(total)), lucky)
    {
      var count := RequestPages(n, Group(total), lucky);
      total := total + count;
      first := if count > n then from + (count - n) else from;
    }

    /** Is the block that the system may hand out at `from` really new? */
    ghost predicate Fresh(from: nat, lucky: bool)
      reads this
    {
      var n := Group(total);
      forall p :: from <= p < from + RequestPages(n, n, lucky) ==> p !in place
    }

    /** alloc_new and add_single_pages: a group of fresh pages goes on the empty list. */
    method Refill(i: nat, from: nat, lucky: bool)
      requires Valid() && i < LISTS && i < |free| && free[i] == [] && Fresh(from, lucky)
      modifies this
      ensures Valid() && i < |old(free)| && total == TotalLeft(old(free), old(total), i, lucky)
      ensures var first, n := GroupStart(old(total), from, lucky), Group(old(total));
        && free == old(free)[i := [first + n - 1] + Pushed(first, n - 1)]
        && (forall p :: p in place <==> p in old(place) || first <= p < first + n)
        && (forall p :: first <= p < first + n ==> p !in old(place))
      ensures forall p :: p in place ==> place[p] == if p in old(place) then old(place)[p] else Free(i)
      ensures forall p :: p in old(place) && p in old(next) ==> p in next && next[p] == old(next)[p]
    {
      hide ListsOk, Pushed;
      var n := Group(total);
      var first := AllocNew(n, from, lucky);
      AddSinglePages(first, n, i);
      PushedTop(first, n);
      assert Pushed(first, n) + old(free)[i] == Pushed(first, n);
    }

    /** A page off list i, refilled first if it is empty: it is on no list any more.  A refill
        is a group of pages from the end of a fresh block; the last of them is the page
        returned, and the others stay on the list. */
    method AllocSinglePage(link: Option<nat>, i: nat, from: nat, lucky: bool) returns (p: nat)
      requires Valid() && i < LISTS && Fresh(from, lucky)
      modifies this
      ensures Valid() && p !in place && p in next && next[p] == link
      ensures p in old(place) ==> old(place)[p] == Free(i)
      ensures p !in old(place) ==> old(free)[i] == []
      ensures forall q :: q in old(place) && q != p ==> q in place && place[q] == old(place)[q]
      ensures forall q :: q in place ==> if q in old(place) then place[q] == old(place)[q] else place[q] == Free(i)
      ensures forall q :: q in old(place) && q in old(next) && q != p ==> q in next && next[q] == old(next)[q]
      ensures i < |old(free)| && p == TakenPage(old(free), old(total), i, from, lucky)
      ensures free == FreeLeft(old(free), old(total), i, from, lucky) && total == TotalLeft(old(free), old(total), i, lucky)
      ensures forall q :: q in place <==>
        (q in old(place) && q != p) || (old(free)[i] == [] && q in Pushed(GroupStart(old(total), from, lucky), Group(old(total)) - 1))
    {
      CountIs(i);
      hide ListsOk, Pushed;
      if counts[i] == 0 { Refill(i, from, lucky); }
      CountIs(i);
      PushedPages(GroupStart(old(total), from, lucky), Group(old(total)) - 1);
      p := TakeHead(i);
      OffList(p, link);
      next := next[p := link];
    }

    /** The link of a page that is on no list does not matter. */
    lemma OffList(p: nat, link: Option<nat>)
      requires Valid() && p !in place
      ensures ListsOk(next[p := link], heads, counts, free, place)
    {
      forall j | 0 <= j < LISTS ensures ListOk(next[p := link], heads[j], counts[j], free[j], place, j) {
        assert ListOk(next, heads[j], counts[j], free[j], place, j);
        OneListKept(next, heads[j], counts[j], free[j], place, next[p := link], place, j);
      }
    }

    /** free_single_page: the page goes on list i. */
    method FreeSinglePage(p: nat, i: nat)
      requires Valid() && i < LISTS && p !in place
      modifies this`next, this`heads, this`counts, this`free, this`place
      ensures Valid() && free == old(free)[i := [p] + old(free)[i]]
      ensures place == old(place)[p := Free(i)]
      ensures forall q :: q != p && q in old(next) ==> q in next && next[q] == old(next)[q]
    {
      CountIs(i);
      Link(p, i);
      counts := counts[i := counts[i] + 1];
      assert counts == old(counts)[i := |free[i]|];
    }

    method TakeHead(i: nat) returns (p: nat)
      requires Valid() && i < LISTS && free[i] != []
      modifies this`heads, this`counts, this`free, this`place
      ensures Valid() && p == old(free)[i][0] && p in old(place) && old(place)[p] == Free(i)
      ensures free == old(free)[i := old(free)[i][1..]]
      ensures place == old(place) - {p}
    {
      CountIs(i);
      ghost var s := free[i];
      assert ListOk(next, heads[i], counts[i], s, place, i);
      p := heads[i].value;
      assert s[0] in s;
      TailOk(s, i);
      heads := heads[i := next[p]];
      counts := counts[i := counts[i] - 1];
      ListsUpdate(next, old(heads), old(counts), free, place, next, place - {p}, i, heads[i], counts[i], s[1..]);
      free := free[i := s[1..]];
      place := place - {p};
    }

    lemma TailOk(s: seq<nat>, i: nat)
      requires i < |heads| && s != [] && ListOk(next, heads[i], |s|, s, place, i)
      ensures s[0] in next && ListOk(next, next[s[0]], |s| - 1, s[1..], place - {s[0]}, i)
    {
      assert forall p <- s[1..] :: p in s && p != s[0] by {
        forall p | p in s[1..] ensures p in s && p != s[0] {
          var k :| 0 <= k < |s[1..]| && s[1..][k] == p;
          assert s[k + 1] == p;
        }
      }
    }

    /** A page that is on no list belongs to region r from now on. */
    ghost method Own(p: nat, r: nat)
      requires Valid() && p !in place
      modifies this`place
      ensures Valid() && place == old(place)[p := Owned(r)]
    {
      ghost var place' := place[p := Owned(r)];
      forall j | 0 <= j < LISTS ensures ListOk(next, heads[j], counts[j], free[j], place', j) {
        assert ListOk(next, heads[j], counts[j], free[j], place, j);
        OneListKept(next, heads[j], counts[j], free[j], place, next, place', j);
      }
      place := place';
    }

    ghost method Disown(p: nat)
      requires Valid() && p in place && place[p].Owned?
      modifies this`place
      ensures Valid() && place == old(place) - {p}
    {
      ghost var place' := place - {p};
      forall j | 0 <= j < LISTS ensures ListOk(next, heads[j], counts[j], free[j], place', j) {
        assert ListOk(next, heads[j], counts[j], free[j], place, j);
        OneListKept(next, heads[j], counts[j], free[j], place, next, place', j);
      }
      place := place';
    }
  }
}
