/** Regions over the page pool (src/regions.c, src/alloc.c): creation, the allocation
    of small objects on the slow and the fast path, and deletion. */
module Regions {
  import opened Layout
  import opened PagePool

  /** The allocation front of a region: `base` as a page number, and `allocfrom`.  The
      region is named after the page that holds its record. */
  datatype Region = Region(page: nat, allocfrom: nat, pages: Option<nat>)

  datatype Obj = Obj(page: nat, addr: nat, size: nat)

  /** The first address on page p that region r may hand out. */
  function Begin(r: nat, p: nat): nat {
    p * PAGE + HEADER + (if p == r then RECORD else 0)
  }

  predicate Apart(o: Obj, o': Obj) {
    o.addr + o.size <= o'.addr || o'.addr + o'.size <= o.addr
  }

  /** The object lies on its page, past header and record, and the byte after it is
      still on the page; on the current page it ends at the front. */
  ghost predicate ObjOk(r: nat, g: Region, own: seq<nat>, o: Obj) {
    && o.page in own && Begin(r, o.page) <= o.addr && o.addr + o.size < o.page * PAGE + PAGE
    && (o.page == g.page ==> o.addr + o.size <= g.allocfrom)
  }

  ghost predicate ObjectsOk(r: nat, g: Region, own: seq<nat>, objs: seq<Obj>) {
    && (forall k :: 0 <= k < |objs| ==> ObjOk(r, g, own, objs[k]))
    && (forall k, l :: 0 <= k < l < |objs| ==> Apart(objs[k], objs[l]))
  }

  ghost predicate FrontOk(r: nat, g: Region, own: seq<nat>) {
    r in own && g.page in own && Begin(r, g.page) <= g.allocfrom < g.page * PAGE + PAGE
  }

  ghost predicate PagesOk(r: nat, g: Region, own: seq<nat>, next: map<nat, Option<nat>>, place: map<nat, Place>,
                          owner: map<nat, nat>)
  {
    Chain(next, g.pages, own) && Placed(own, place, Owned(r)) && forall p <- own :: p in owner && owner[p] == r
  }

  // ---- what follows from the invariant --------------------------------------

  lemma PagesApart(p: nat, q: nat)
    requires p < q
    ensures p * PAGE + PAGE <= q * PAGE
  {
  }

  /** Two objects of two regions lie on different pages. */
  lemma RegionsApart(r: nat, g: Region, own: seq<nat>, o: Obj, s: nat, h: Region, own': seq<nat>, o': Obj, place: map<nat, Place>)
    requires r != s && ObjOk(r, g, own, o) && ObjOk(s, h, own', o')
    requires Placed(own, place, Owned(r)) && Placed(own', place, Owned(s))
    ensures Apart(o, o')
  {
    assert o.page != o'.page;
    if o.page < o'.page { PagesApart(o.page, o'.page); } else { PagesApart(o'.page, o.page); }
  }

  /** No object touches the header of any page. */
  lemma AvoidsHeader(r: nat, g: Region, own: seq<nat>, o: Obj, p: nat)
    requires ObjOk(r, g, own, o)
    ensures o.addr + o.size <= p * PAGE || p * PAGE + HEADER <= o.addr
  {
    if o.page < p { PagesApart(o.page, p); } else if p < o.page { PagesApart(p, o.page); }
  }

  /** No object touches a region record. */
  lemma AvoidsRecord(r: nat, g: Region, own: seq<nat>, o: Obj, s: nat, own': seq<nat>, place: map<nat, Place>)
    requires ObjOk(r, g, own, o) && s in own' && Placed(own, place, Owned(r)) && Placed(own', place, Owned(s))
    ensures o.addr + o.size <= s * PAGE + HEADER || s * PAGE + HEADER + RECORD <= o.addr
  {
    if o.page < s { PagesApart(o.page, s); } else if s < o.page { PagesApart(s, o.page); }
  }

  lemma ObjectsGrow(r: nat, g: Region, own: seq<nat>, objs: seq<Obj>, g': Region, own': seq<nat>, o: Obj)
    requires ObjectsOk(r, g, own, objs) && ObjOk(r, g', own', o) && o.page == g'.page
    requires forall p <- own :: p in own'
    requires if g'.page == g.page then g.allocfrom <= o.addr && g.allocfrom <= g'.allocfrom else g'.page !in own
    ensures ObjectsOk(r, g', own', objs + [o])
  {
    forall k | 0 <= k < |objs| ensures ObjOk(r, g', own', objs[k]) && Apart(objs[k], o) {
      assert ObjOk(r, g, own, objs[k]);
      if objs[k].page < o.page { PagesApart(objs[k].page, o.page); }
      else if o.page < objs[k].page { PagesApart(o.page, objs[k].page); }
    }
  }

  // ---- memory words ---------------------------------------------------------

  /** n words from word w on set to zero. */
  function Zeroed(mem: map<nat, int>, w: nat, n: nat): map<nat, int> {
    if n == 0 then mem else Zeroed(mem, w, n - 1)[w + (n - 1) := 0]
  }

  lemma {:induction false} ZeroedWords(mem: map<nat, int>, w: nat, n: nat)
    ensures forall i :: w <= i < w + n ==> i in Zeroed(mem, w, n) && Zeroed(mem, w, n)[i] == 0
    ensures forall i :: !(w <= i < w + n) ==>
      (i in Zeroed(mem, w, n) <==> i in mem) && (i in mem ==> Zeroed(mem, w, n)[i] == mem[i])
  {
    if n > 0 { ZeroedWords(mem, w, n - 1); }
  }

  /** The words outside lo..hi-1 (addresses) are the same in both memories. */
  ghost predicate SameOutside(mem: map<nat, int>, mem': map<nat, int>, lo: nat, hi: nat) {
    forall i :: WORD * i + WORD <= lo || hi <= WORD * i ==> (i in mem' <==> i in mem) && (i in mem ==> mem'[i] == mem[i])
  }

  ghost predicate ZeroWithin(mem: map<nat, int>, lo: nat, hi: nat) {
    forall i :: lo <= WORD * i && WORD * i < hi ==> i in mem && mem[i] == 0
  }

  /** What the fast path, and the slow path when the object fits, make of the front. */
  function Bumped(g: Region, size: nat): Region { g.(allocfrom := Align(g.allocfrom, WORD) + size) }

  predicate Fits(g: Region, size: nat) { Align(g.allocfrom, WORD) + size < g.page * PAGE + PAGE }

  lemma AlignOne(x: nat)
    ensures Align(x, 1) == x
  {
  }

  /** The words that hold bytes of o are the same in both memories. */
  ghost predicate SameWords(mem: map<nat, int>, mem': map<nat, int>, o: Obj) {
    forall i :: WORD * i < o.addr + o.size && o.addr < WORD * i + WORD ==>
      (i in mem' <==> i in mem) && (i in mem ==> mem'[i] == mem[i])
  }

  /** Other pages of the pool change, the region's own do not. */
  lemma PagesKept(r: nat, g: Region, own: seq<nat>, next: map<nat, Option<nat>>, place: map<nat, Place>, owner: map<nat, nat>,
                  next': map<nat, Option<nat>>, place': map<nat, Place>, owner': map<nat, nat>)
    requires PagesOk(r, g, own, next, place, owner)
    requires forall p :: p in place && place[p] == Owned(r) ==>
      && p in place' && place'[p] == Owned(r) && (p in next ==> p in next' && next'[p] == next[p])
      && (p in owner ==> p in owner' && owner'[p] == owner[p])
    ensures PagesOk(r, g, own, next', place', owner')
  {
    ChainIn(next, g.pages, own);
    ChainFrame(next, next', g.pages, own);
    hide Chain;
  }

  lemma OwnPlaces(r: nat, g: Region, own: seq<nat>, next: map<nat, Option<nat>>, place: map<nat, Place>, owner: map<nat, nat>)
    requires PagesOk(r, g, own, next, place, owner)
    ensures forall p <- own :: p in place && place[p] == Owned(r)
  {
  }

  lemma OnePage(r: nat, g: Region, next: map<nat, Option<nat>>, place: map<nat, Place>, owner: map<nat, nat>)
    requires g.pages == Some(r) && r in next && next[r] == None
    requires r in place && place[r] == Owned(r) && r in owner && owner[r] == r
    ensures PagesOk(r, g, [r], next, place, owner)
  {
    assert [r][1..] == [];
    assert NoRepeats([r]);
  }

  lemma PagesGrow(r: nat, g: Region, own: seq<nat>, next: map<nat, Option<nat>>, place: map<nat, Place>, owner: map<nat, nat>,
                  p: nat, g': Region)
    requires PagesOk(r, g, own, next, place, owner) && p !in own && g'.pages == Some(p)
    requires p in next && next[p] == g.pages && p in place && place[p] == Owned(r) && p in owner && owner[p] == r
    ensures PagesOk(r, g', [p] + own, next, place, owner)
  {
    RepeatsFront(p, own);
    assert ([p] + own)[1..] == own;
    hide NoRepeats;
  }

  // ---- the whole state ---------------------------------------------------------

  /** What the operations change: regions, page map, `available`, memory, and the pool's
      lists and page count; which pages and objects a region has. */
  datatype State = State(regions: map<nat, Region>, owner: map<nat, nat>, available: map<nat, nat>, mem: map<nat, int>,
                         owned: map<nat, seq<nat>>, objects: map<nat, seq<Obj>>, free: seq<seq<nat>>, total: nat)

  /** What malloc and the random choice of a list contribute. */
  datatype Luck = Luck(list: nat, from: nat, lucky: bool)

  predicate CanTake(s: State, l: Luck) { l.list < |s.free| }

  function Page(s: State, l: Luck): nat
    requires CanTake(s, l)
  {
    TakenPage(s.free, s.total, l.list, l.from, l.lucky)
  }

  /** alloc_single_page, and set_region for region r, or for a new region named after the page. */
  function Grabbed(s: State, l: Luck, r: Option<nat>): State
    requires CanTake(s, l)
  {
    s.(owner := s.owner[Page(s, l) := if r.Some? then r.value else Page(s, l)],
       free := FreeLeft(s.free, s.total, l.list, l.from, l.lucky), total := TotalLeft(s.free, s.total, l.list, l.lucky))
  }

  /** initregion on page r. */
  function Enrolled(s: State, r: nat): State {
    s.(regions := s.regions[r := Region(r, Begin(r, r), Some(r))], available := s.available[r := Begin(r, r)],
       owned := s.owned[r := [r]], objects := s.objects[r := []])
  }

  /** clear. */
  function Wiped(s: State, start: nat, size: nat): State {
    s.(mem := Zeroed(s.mem, start / WORD, Cleared(size) / WORD))
  }

  function Created(s: State, l: Luck): State
    requires CanTake(s, l)
  {
    var r := Page(s, l);
    Enrolled(Wiped(Grabbed(s, l, None), r * PAGE + HEADER, RECORD), r)
  }

  /** Page p in front of the pages of region r. */
  function Extended(s: State, r: nat, p: nat): State
    requires r in s.owned
  {
    s.(regions := s.regions[r := Region(p, p * PAGE + HEADER, Some(p))], available := s.available[p := p * PAGE + HEADER],
       owned := s.owned[r := [p] + s.owned[r]])
  }

  /** A new page, cleared. */
  function Started(s: State, r: nat, l: Luck): State
    requires CanTake(s, l) && r in s.owned
  {
    var p := Page(s, l);
    Extended(Wiped(Grabbed(s, l, Some(r)), p * PAGE + HEADER, PAGE - HEADER), r, p)
  }

  /** The front moves over a new object. */
  function Advanced(s: State, r: nat, size: nat): State
    requires r in s.regions && r in s.objects
  {
    var g := s.regions[r];
    var g' := Bumped(g, size);
    s.(regions := s.regions[r := g'], available := s.available[g.page := g'.allocfrom],
       objects := s.objects[r := s.objects[r] + [Obj(g.page, Align(g.allocfrom, WORD), size)]])
  }

  predicate HasRegion(s: State, r: nat) { r in s.regions && r in s.owned && r in s.objects }

  /** The address of the next object of region r. */
  function Address(s: State, r: nat): nat
    requires r in s.regions
  {
    Align(s.regions[r].allocfrom, WORD)
  }

  /** The front that the next object of this size is taken from: the present one, or that of
      a new page. */
  function Ready(s: State, r: nat, size: nat, l: Luck): (s': State)
    requires HasRegion(s, r) && CanTake(s, l)
    ensures HasRegion(s', r)
  {
    if Fits(s.regions[r], size) then s else Started(s, r, l)
  }

  /** __rc_rstralloc for small objects. */
  function Allocated(s: State, r: nat, size: nat, l: Luck): State
    requires HasRegion(s, r) && CanTake(s, l)
  {
    Advanced(Ready(s, r, size, l), r, size)
  }

  /** __rc_typed_ralloc: the same, and the object cleared. */
  function TypedAllocated(s: State, r: nat, size: nat, l: Luck): State
    requires HasRegion(s, r) && CanTake(s, l)
  {
    Wiped(Allocated(s, r, size, l), Address(Ready(s, r, size, l), r), size)
  }

  /** The first n pages go to the lists that `pick` says. */
  function Freed(free: seq<seq<nat>>, own: seq<nat>, pick: nat -> nat, n: nat): seq<seq<nat>>
    requires n <= |own| && forall k :: pick(k) < |free|
  {
    if n == 0 then free else PutBack(Freed(free, own, pick, n - 1), pick(n - 1), own[n - 1])
  }

  function PutBack(free: seq<seq<nat>>, i: nat, p: nat): seq<seq<nat>> {
    if i < |free| then free[i := [p] + free[i]] else free
  }

  function Deleted(s: State, r: nat, pick: nat -> nat): State
    requires r in s.owned && forall k :: pick(k) < |s.free|
  {
    s.(regions := s.regions - {r}, owned := s.owned - {r}, objects := s.objects - {r},
       free := Freed(s.free, s.owned[r], pick, |s.owned[r]|))
  }

  class Heap {
    const pool: Pool
    var regions: map<nat, Region>      // live regions, by the page of their record
    var owner: map<nat, nat>           // the page-to-region map
    var available: map<nat, nat>       // page->available
    var mem: map<nat, int>             // the words ever written
    ghost var owned: map<nat, seq<nat>>
    ghost var objects: map<nat, seq<Obj>>

    ghost function View(): State
      reads this, pool
    {
      State(regions, owner, available, mem, owned, objects, pool.free, pool.total)
    }

    ghost predicate RegionOk(r: nat)
      requires r in regions && r in owned && r in objects
      reads this, pool
    {
      && PagesOk(r, regions[r], owned[r], pool.next, pool.place, owner)
      && FrontOk(r, regions[r], owned[r]) && ObjectsOk(r, regions[r], owned[r], objects[r])
    }

    ghost predicate Valid()
      reads this, pool
    {
      && pool.Valid() && regions.Keys == owned.Keys == objects.Keys
      && forall r :: r in regions ==> RegionOk(r)
    }

    constructor ()
      ensures Valid() && fresh(pool) && View() == State(map[], map[], map[], map[], map[], map[], seq(LISTS, _ => []), 0)
    {
      pool := new Pool();
      regions, owner, available, mem, owned, objects := map[], map[], map[], map[], map[], map[];
    }

    /** Only region r has changed, and the pool has not. */
    twostate lemma OneRegion(r: nat)
      requires old(Valid()) && unchanged(pool) && owner == old(owner) && r in regions && r in owned && r in objects && RegionOk(r)
      requires regions.Keys == owned.Keys == objects.Keys
      requires forall s :: s in regions && s != r ==>
        && s in old(regions) && s in old(owned) && s in old(objects)
        && regions[s] == old(regions)[s] && owned[s] == old(owned)[s] && objects[s] == old(objects)[s]
      ensures Valid()
    {
      hide PagesOk, FrontOk, ObjectsOk, ListsOk;
      forall s | s in regions ensures RegionOk(s) {
        if s != r { assert old(RegionOk(s)); }
      }
    }

    lemma Lists()
      requires Valid()
      ensures |pool.free| == LISTS
    {
    }

    /** The objects of all live regions are pairwise disjoint, and none touches a page
        header or a region record. */
    lemma LiveObjectsApart(r: nat, i: nat, s: nat, j: nat, p: nat)
      requires Valid() && r in regions && s in regions && i < |objects[r]| && j < |objects[s]| && (r != s || i != j)
      ensures Apart(objects[r][i], objects[s][j])
      ensures objects[r][i].addr + objects[r][i].size <= p * PAGE || p * PAGE + HEADER <= objects[r][i].addr
      ensures objects[r][i].addr + objects[r][i].size <= s * PAGE + HEADER || s * PAGE + HEADER + RECORD <= objects[r][i].addr
    {
      var o, o' := objects[r][i], objects[s][j];
      assert RegionOk(r) && RegionOk(s);
      assert ObjOk(r, regions[r], owned[r], o) && ObjOk(s, regions[s], owned[s], o');
      if r == s {
        assert if i < j then Apart(o, o') else Apart(o', o);
      } else {
        RegionsApart(r, regions[r], owned[r], o, s, regions[s], owned[s], o', pool.place);
      }
      AvoidsHeader(r, regions[r], owned[r], o, p);
      AvoidsRecord(r, regions[r], owned[r], o, s, owned[s], pool.place);
    }

    /** regionof, for every address on a page of the region. */
    lemma RegionOf(r: nat, i: nat)
      requires Valid() && r in regions && i < |objects[r]|
      ensures objects[r][i].page in owner && owner[objects[r][i].page] == r
    {
      assert RegionOk(r);
      assert ObjOk(r, regions[r], owned[r], objects[r][i]);
    }

    // ---- clear --------------------------------------------------------------

    /** The do-while loop over words: at least one is written. */
    method Clear(start: nat, size: nat)
      requires start % WORD == 0
      modifies this`mem
      ensures mem == Zeroed(old(mem), start / WORD, Cleared(size) / WORD)
      ensures ZeroWithin(mem, start, start + Cleared(size)) && SameOutside(old(mem), mem, start, start + Cleared(size))
    {
      var word, end := start / WORD, start + size;
      ghost var n := 0;
      ClearedWords(size);
      while true
        invariant word == start / WORD + n && n < Cleared(size) / WORD
        invariant mem == Zeroed(old(mem), start / WORD, n)
        decreases Cleared(size) / WORD - n
      {
        mem := mem[word := 0];
        word := word + 1;
        n := n + 1;
        if WORD * word >= end { break; }
      }
      assert n == Cleared(size) / WORD;
      ZeroedWords(old(mem), start / WORD, n);
    }

    lemma ClearedWords(size: nat)
      ensures Cleared(size) % WORD == 0 && Cleared(size) >= WORD
      ensures size <= Cleared(size) < size + WORD || (size == 0 && Cleared(size) == WORD)
    {
      if size > 0 { AlignUp(size, WORD); }
    }

    // ---- creation -----------------------------------------------------------

    /** What malloc and the random choice of a list contribute to an operation. */
    ghost predicate Supplied(i: nat, from: nat, lucky: bool)
      reads pool
    {
      i < LISTS && pool.Fresh(from, lucky)
    }

    /** alloc_single_page and set_region: page p now belongs to region r. */
    method GrabPage(link: Option<nat>, i: nat, from: nat, lucky: bool, r: Option<nat>) returns (p: nat)
      requires Valid() && Supplied(i, from, lucky) && (r.Some? ==> r.value in regions)
      modifies this`owner, pool
      ensures Valid() && pool.Valid() && p in pool.next && pool.next[p] == link
      ensures p in pool.place && pool.place[p] == Owned(if r.Some? then r.value else p)
      ensures p in owner && owner[p] == if r.Some? then r.value else p
      ensures p !in regions && forall s :: s in owned ==> p !in owned[s]
      ensures CanTake(old(View()), Luck(i, from, lucky)) && p == Page(old(View()), Luck(i, from, lucky))
      ensures View() == Grabbed(old(View()), Luck(i, from, lucky), r)
    {
      hide PagesOk, ObjectsOk, FrontOk, ListsOk;
      ghost var next, place := pool.next, pool.place;
      p := pool.AllocSinglePage(link, i, from, lucky);
      pool.Own(p, if r.Some? then r.value else p);
      owner := owner[p := if r.Some? then r.value else p];
      forall s | s in regions ensures RegionOk(s) && p !in owned[s] {
        assert old(RegionOk(s));
        OwnPlaces(s, regions[s], owned[s], next, place, old(owner));
        PagesKept(s, regions[s], owned[s], next, place, old(owner), pool.next, pool.place, owner);
      }
      if p in regions { FirstOwned(p, regions[p], owned[p]) by { assert old(RegionOk(p)); } }
    }

    lemma FirstOwned(r: nat, g: Region, own: seq<nat>)
      requires FrontOk(r, g, own)
      ensures r in own
    {
    }

    /** newsubregion: the record lies on the region's first page. */
    method NewSubregion(i: nat, from: nat, lucky: bool) returns (r: nat)
      requires Valid() && Supplied(i, from, lucky)
      modifies this, pool
      ensures Valid() && r !in old(regions) && r in objects && objects == old(objects)[r := []]
      ensures regions == old(regions)[r := Region(r, Begin(r, r), Some(r))]
      ensures available == old(available)[r := Begin(r, r)]
      ensures ZeroWithin(mem, r * PAGE + HEADER, Begin(r, r)) && SameOutside(old(mem), mem, r * PAGE + HEADER, Begin(r, r))
      ensures CanTake(old(View()), Luck(i, from, lucky)) && r == Page(old(View()), Luck(i, from, lucky))
      ensures View() == Created(old(View()), Luck(i, from, lucky))
    {
      hide PagesOk, ObjectsOk, ListsOk, Zeroed, SameOutside, ZeroWithin, FrontOk, Cleared;
      r := GrabPage(None, i, from, lucky, None);
      RecordWords(r);
      Clear(r * PAGE + HEADER, RECORD);
      Enroll(r);
    }

    /** initregion: page r belongs to nobody else, and becomes a region of one page. */
    method Enroll(r: nat)
      requires Valid() && r !in regions && r in pool.next && pool.next[r] == None
      requires r in pool.place && pool.place[r] == Owned(r) && r in owner && owner[r] == r
      requires forall s :: s in owned ==> r !in owned[s]
      modifies this`regions, this`available, this`owned, this`objects
      ensures Valid() && r in objects && objects == old(objects)[r := []]
      ensures regions == old(regions)[r := Region(r, Begin(r, r), Some(r))]
      ensures available == old(available)[r := Begin(r, r)]
      ensures View() == Enrolled(old(View()), r)
    {
      hide PagesOk, ObjectsOk, ListsOk, FrontOk;
      var g := Region(r, Begin(r, r), Some(r));
      regions := regions[r := g];
      available := available[r := g.allocfrom];
      owned, objects := owned[r := [r]], objects[r := []];
      OnePage(r, g, pool.next, pool.place, owner);
      NewRegion(r, g);
      OneRegion(r);
    }

    lemma RecordWords(p: nat)
      ensures (p * PAGE + HEADER) % WORD == 0 && Cleared(RECORD) == RECORD
    {
      assert p * PAGE + HEADER == (p * 2048 + 4) * WORD;
      AlignIs(RECORD, WORD, RECORD);
    }

    lemma NewRegion(r: nat, g: Region)
      requires g.page == r && g.allocfrom == Begin(r, r)
      ensures FrontOk(r, g, [r]) && ObjectsOk(r, g, [r], [])
    {
    }

    // ---- allocation ---------------------------------------------------------

    /** The part of alloc_block that starts a new page. */
    method StartPage(r: nat, i: nat, from: nat, lucky: bool)
      requires Valid() && r in regions && Supplied(i, from, lucky)
      modifies this, pool
      ensures Valid() && objects == old(objects) && r in regions && r in owned && r in old(owned)
      ensures regions == old(regions)[r := regions[r]]
      ensures regions[r].allocfrom == regions[r].page * PAGE + HEADER && regions[r].page != r
      ensures regions[r].page !in old(owned)[r] && forall s :: s in old(owned) ==> regions[r].page !in old(owned)[s]
      ensures forall s :: s in old(owned) && s != r ==> s in owned && owned[s] == old(owned)[s]
      ensures forall q <- old(owned)[r] :: q in owned[r]
      ensures SameOutside(old(mem), mem, regions[r].page * PAGE + HEADER, regions[r].page * PAGE + PAGE)
      ensures CanTake(old(View()), Luck(i, from, lucky)) && View() == Started(old(View()), r, Luck(i, from, lucky))
    {
      hide PagesOk, ObjectsOk, FrontOk, ListsOk, Zeroed, SameOutside, ZeroWithin;
      assert RegionOk(r);
      var p := GrabPage(regions[r].pages, i, from, lucky, Some(r));
      PageWords(p);
      Clear(p * PAGE + HEADER, PAGE - HEADER);
      Extend(r, p);
    }

    /** The new page goes in front of `pages`, and the front to its start. */
    method Extend(r: nat, p: nat)
      requires Valid() && r in regions && r in owned && p in pool.next && pool.next[p] == regions[r].pages
      requires p in pool.place && pool.place[p] == Owned(r) && p in owner && owner[p] == r
      requires p !in regions && forall s :: s in owned ==> p !in owned[s]
      modifies this`regions, this`available, this`owned
      ensures Valid() && r in regions && r in owned && r in old(owned)
      ensures regions == old(regions)[r := Region(p, p * PAGE + HEADER, Some(p))]
      ensures owned == old(owned)[r := [p] + old(owned)[r]]
      ensures View() == Extended(old(View()), r, p)
    {
      hide PagesOk, ObjectsOk, ListsOk;
      var g := regions[r];
      assert RegionOk(r);
      var g' := Region(p, p * PAGE + HEADER, Some(p));
      regions := regions[r := g'];
      available := available[p := g'.allocfrom];
      ghost var own := owned[r];
      owned := owned[r := [p] + own];
      PagesGrow(r, g, own, pool.next, pool.place, owner, p, g');
      NewFront(r, g, own, objects[r], g', p);
      OneRegion(r);
    }

    lemma PageWords(p: nat)
      ensures (p * PAGE + HEADER) % WORD == 0 && Cleared(PAGE - HEADER) == PAGE - HEADER
    {
      assert p * PAGE + HEADER == (p * 2048 + 4) * WORD;
      AlignIs(PAGE - HEADER, WORD, PAGE - HEADER);
    }

    lemma NewFront(r: nat, g: Region, own: seq<nat>, objs: seq<Obj>, g': Region, p: nat)
      requires ObjectsOk(r, g, own, objs) && p !in own && g'.page == p
      ensures ObjectsOk(r, g', [p] + own, objs)
    {
      forall k | 0 <= k < |objs| ensures ObjOk(r, g', [p] + own, objs[k]) { assert ObjOk(r, g, own, objs[k]); }
    }

    lemma SameChain(r: nat, g: Region, g': Region, own: seq<nat>, nx: map<nat, Option<nat>>, pl: map<nat, Place>, ow: map<nat, nat>)
      requires PagesOk(r, g, own, nx, pl, ow) && g'.pages == g.pages
      ensures PagesOk(r, g', own, nx, pl, ow)
    {
      hide Chain, Placed;
    }

    /** The front moves over a new object that fits. */
    method Bump(r: nat, size: nat) returns (addr: nat)
      requires Valid() && r in regions && Fits(regions[r], size)
      modifies this`regions, this`available, this`objects
      ensures Valid() && r in objects && r in old(objects)
      ensures addr == Align(old(regions)[r].allocfrom, WORD) && addr % WORD == 0
      ensures regions == old(regions)[r := Bumped(old(regions)[r], size)]
      ensures available == old(available)[old(regions)[r].page := regions[r].allocfrom]
      ensures objects == old(objects)[r := old(objects)[r] + [Obj(old(regions)[r].page, addr, size)]]
      ensures View() == Advanced(old(View()), r, size)
    {
      hide PagesOk, ObjectsOk, FrontOk, ListsOk, Align;
      var g := regions[r];
      assert RegionOk(r);
      BumpOk(r, g, owned[r], objects[r], size, pool.next, pool.place, owner);
      var mem2 := Align(g.allocfrom, WORD);
      addr := mem2;
      regions := regions[r := g.(allocfrom := mem2 + size)];
      available := available[g.page := mem2 + size];
      objects := objects[r := objects[r] + [Obj(g.page, addr, size)]];
      OneRegion(r);
    }

    lemma BumpOk(r: nat, g: Region, own: seq<nat>, objs: seq<Obj>, size: nat, nx: map<nat, Option<nat>>, pl: map<nat, Place>, ow: map<nat, nat>)
      requires PagesOk(r, g, own, nx, pl, ow) && FrontOk(r, g, own) && ObjectsOk(r, g, own, objs) && Fits(g, size)
      ensures var g', addr := Bumped(g, size), Align(g.allocfrom, WORD);
        && PagesOk(r, g', own, nx, pl, ow) && FrontOk(r, g', own) && ObjectsOk(r, g', own, objs + [Obj(g.page, addr, size)])
        && addr % WORD == 0
    {
      hide PagesOk, ObjectsOk, Align;
      AlignUp(g.allocfrom, WORD);
      SameChain(r, g, Bumped(g, size), own, nx, pl, ow);
      ObjectsGrow(r, g, own, objs, Bumped(g, size), own, Obj(g.page, Align(g.allocfrom, WORD), size));
    }

    /** The requests that qalloc does not send to the big pages. */
    predicate Small(r: nat, size: nat)
      requires r in regions
      reads this
    {
      Fits(regions[r], size) || Needed(0, size, WORD) <= PAGE / K
    }

    /** __rc_rstralloc through qalloc and alloc_block. */
    method Rstralloc(r: nat, size: nat, i: nat, from: nat, lucky: bool) returns (addr: nat)
      requires Valid() && r in regions && Small(r, size) && Supplied(i, from, lucky)
      modifies this, pool
      ensures Valid() && r in objects && r in regions && r in old(objects) && regions == old(regions)[r := regions[r]]
      ensures addr % WORD == 0 && regions[r].page * PAGE + HEADER <= addr && addr + size < regions[r].page * PAGE + PAGE
      ensures objects == old(objects)[r := old(objects)[r] + [Obj(regions[r].page, addr, size)]]
      ensures if Fits(old(regions)[r], size)
              then addr == Align(old(regions)[r].allocfrom, WORD) && regions[r] == Bumped(old(regions)[r], size)
                   && mem == old(mem) && pool.free == old(pool.free)
                   && available == old(available)[old(regions)[r].page := regions[r].allocfrom]
              else forall s, o :: s in old(objects) && o in old(objects)[s] ==> o.page != regions[r].page
      ensures SameOutside(old(mem), mem, regions[r].page * PAGE + HEADER, regions[r].page * PAGE + PAGE)
      ensures CanTake(old(View()), Luck(i, from, lucky)) && HasRegion(old(View()), r)
      ensures View() == Allocated(old(View()), r, size, Luck(i, from, lucky))
      ensures addr == Address(Ready(old(View()), r, size, Luck(i, from, lucky)), r)
    {
      hide PagesOk, ObjectsOk, ListsOk, Align, SameOutside, FrontOk;
      Lists();
      var g := regions[r];
      var mem1 := Align(g.allocfrom, 1);
      AlignOne(g.allocfrom);
      if Align(mem1 + 0, WORD) + size < g.page * PAGE + PAGE {
        SameAsSame(mem, g.page * PAGE + HEADER, g.page * PAGE + PAGE);
        HeaderBelow(r);
        AlignAbove(g.allocfrom);
        addr := Bump(r, size);
      } else {
        addr := AllocBlock(r, size, i, from, lucky);
      }
    }

    /** alloc_block for single pages, when the object does not fit the current one. */
    method AllocBlock(r: nat, size: nat, i: nat, from: nat, lucky: bool) returns (addr: nat)
      requires Valid() && r in regions && !Fits(regions[r], size) && Needed(0, size, WORD) <= PAGE / K && Supplied(i, from, lucky)
      modifies this, pool
      ensures Valid() && r in objects && r in regions && r in old(objects) && regions == old(regions)[r := regions[r]]
      ensures addr % WORD == 0 && regions[r].page * PAGE + HEADER <= addr && addr + size < regions[r].page * PAGE + PAGE
      ensures objects == old(objects)[r := old(objects)[r] + [Obj(regions[r].page, addr, size)]]
      ensures forall s, o :: s in old(objects) && o in old(objects)[s] ==> o.page != regions[r].page
      ensures SameOutside(old(mem), mem, regions[r].page * PAGE + HEADER, regions[r].page * PAGE + PAGE)
      ensures CanTake(old(View()), Luck(i, from, lucky)) && HasRegion(old(View()), r)
      ensures View() == Allocated(old(View()), r, size, Luck(i, from, lucky))
      ensures addr == Address(Ready(old(View()), r, size, Luck(i, from, lucky)), r)
    {
      hide PagesOk, ObjectsOk, ListsOk, Align, SameOutside, FrontOk;
      OwnPages();
      StartPage(r, i, from, lucky);
      FitsNewPage(regions[r].page, size);
      AlignAbove(regions[r].allocfrom);
      addr := Bump(r, size);
    }

    lemma SameAsSame(m: map<nat, int>, lo: nat, hi: nat)
      ensures SameOutside(m, m, lo, hi)
    {
    }

    lemma OwnPages()
      requires Valid()
      ensures forall s, o :: s in objects && o in objects[s] ==> s in owned && o.page in owned[s]
    {
      forall s, o | s in objects && o in objects[s] ensures s in owned && o.page in owned[s] {
        assert RegionOk(s);
        var k :| 0 <= k < |objects[s]| && objects[s][k] == o;
        assert ObjOk(s, regions[s], owned[s], objects[s][k]);
      }
    }

    lemma FitsNewPage(p: nat, size: nat)
      requires Needed(0, size, WORD) <= PAGE / K
      ensures Align(p * PAGE + HEADER, WORD) + size < p * PAGE + PAGE
    {
      AlignOne(p * PAGE + HEADER);
      NewPageFits(p * PAGE, 0, 1, size, WORD);
    }

    /** Every object of before keeps its words. */
    ghost predicate Spared(objs: map<nat, seq<Obj>>, m: map<nat, int>, m': map<nat, int>) {
      forall s, o :: s in objs && o in objs[s] ==> SameWords(m, m', o)
    }

    /** Words cleared on a page from lo on spare what lies below lo or on other pages. */
    lemma SparesBelow(m: map<nat, int>, m': map<nat, int>, o: Obj, page: nat, lo: nat, hi: nat)
      requires SameOutside(m, m', lo, hi) && page * PAGE <= lo && hi <= page * PAGE + PAGE && lo % WORD == 0
      requires o.page * PAGE <= o.addr && o.addr + o.size < o.page * PAGE + PAGE
      requires o.page == page ==> o.addr + o.size <= lo
      ensures SameWords(m, m', o)
    {
      forall i | WORD * i < o.addr + o.size && o.addr < WORD * i + WORD
        ensures WORD * i + WORD <= lo || hi <= WORD * i
      {
        WordSpared(o, page, lo, hi, i);
      }
    }

    lemma WordSpared(o: Obj, page: nat, lo: nat, hi: nat, i: nat)
      requires page * PAGE <= lo && hi <= page * PAGE + PAGE && lo % WORD == 0
      requires o.page * PAGE <= o.addr && o.addr + o.size < o.page * PAGE + PAGE
      requires o.page == page ==> o.addr + o.size <= lo
      requires WORD * i < o.addr + o.size && o.addr < WORD * i + WORD
      ensures WORD * i + WORD <= lo || hi <= WORD * i
    {
      if o.page <= page {
        if o.page < page { PagesApart(o.page, page); }
        WordBelow(lo, i);
      } else {
        PagesApart(page, o.page);
        PageWord(o.page, i);
      }
    }

    lemma WordBelow(lo: nat, i: nat)
      requires lo % WORD == 0
      ensures WORD * i < lo ==> WORD * i + WORD <= lo
    {
    }

    /** A word that reaches past the start of a page starts on it or after. */
    lemma PageWord(p: nat, i: nat)
      requires p * PAGE < WORD * i + WORD
      ensures p * PAGE <= WORD * i
    {
      assert p * PAGE == (p * 2048) * WORD;
    }

    lemma SameTwice(m: map<nat, int>, m': map<nat, int>, m'': map<nat, int>, o: Obj)
      requires SameWords(m, m', o) && SameWords(m', m'', o)
      ensures SameWords(m, m'', o)
    {
    }

    /** Where the objects are, as far as their words are concerned. */
    lemma Extents()
      requires Valid()
      ensures forall s, o :: s in objects && o in objects[s] ==>
        && s in regions && o.page * PAGE <= o.addr && o.addr + o.size < o.page * PAGE + PAGE
        && (o.page == regions[s].page ==> o.addr + o.size <= regions[s].allocfrom)
    {
      forall s, o | s in objects && o in objects[s]
        ensures s in regions && o.page * PAGE <= o.addr && o.addr + o.size < o.page * PAGE + PAGE
        ensures o.page == regions[s].page ==> o.addr + o.size <= regions[s].allocfrom
      {
        assert RegionOk(s);
        var k :| 0 <= k < |objects[s]| && objects[s][k] == o;
        assert ObjOk(s, regions[s], owned[s], objects[s][k]);
      }
    }

    /** An object of another region is not on the current page of r. */
    lemma OtherPages(r: nat)
      requires Valid() && r in regions
      ensures forall s, o :: s in objects && s != r && o in objects[s] ==> o.page != regions[r].page
    {
      forall s, o | s in objects && s != r && o in objects[s] ensures o.page != regions[r].page {
        assert RegionOk(s) && RegionOk(r);
        var k :| 0 <= k < |objects[s]| && objects[s][k] == o;
        assert ObjOk(s, regions[s], owned[s], objects[s][k]);
        OwnPlaces(s, regions[s], owned[s], pool.next, pool.place, owner);
        OwnPlaces(r, regions[r], owned[r], pool.next, pool.place, owner);
      }
    }

    /** __rc_typed_ralloc: __rc_rstralloc0, which is __rc_rstralloc and clear.  The new
        object is zero, size 0 included no earlier object loses a word, and the clearing
        stays on the page. */
    method TypedRalloc(r: nat, size: nat, i: nat, from: nat, lucky: bool) returns (addr: nat)
      requires Valid() && r in regions && Small(r, size) && Supplied(i, from, lucky)
      modifies this, pool
      ensures Valid() && r in objects && r in regions && r in old(objects) && regions == old(regions)[r := regions[r]]
      ensures objects == old(objects)[r := old(objects)[r] + [Obj(regions[r].page, addr, size)]]
      ensures addr % WORD == 0 && addr + Cleared(size) <= regions[r].page * PAGE + PAGE
      ensures ZeroWithin(mem, addr, addr + Cleared(size)) && Spared(old(objects), old(mem), mem)
      ensures Fits(old(regions)[r], size) ==>
                && addr == Align(old(regions)[r].allocfrom, WORD) && regions[r] == Bumped(old(regions)[r], size)
                && mem == Zeroed(old(mem), addr / WORD, Cleared(size) / WORD) && pool.free == old(pool.free)
                && available == old(available)[old(regions)[r].page := regions[r].allocfrom]
      ensures CanTake(old(View()), Luck(i, from, lucky)) && HasRegion(old(View()), r)
      ensures View() == TypedAllocated(old(View()), r, size, Luck(i, from, lucky))
      ensures addr == Address(Ready(old(View()), r, size, Luck(i, from, lucky)), r)
    {
      hide PagesOk, ObjectsOk, ListsOk, FrontOk, Align, SameOutside, SameWords, ZeroWithin, Zeroed, Cleared;
      Extents();
      OtherPages(r);
      AlignAbove(regions[r].allocfrom);
      addr := Rstralloc(r, size, i, from, lucky);
      label taken:
      ghost var page := regions[r].page;
      ClearStaysInPage(page * PAGE, addr, size) by { PageStart(page); }
      Clear(addr, size);
      forall s, o | s in old(objects) && o in old(objects)[s] ensures SameWords(old(mem), mem, o) {
        SparedOne(r, s, o, page, addr, size, old(regions), old(mem), old@taken(mem), mem);
      }
    }

    lemma AlignAbove(x: nat)
      ensures Align(x, WORD) >= x
    {
      AlignUp(x, WORD);
    }

    lemma PageStart(p: nat)
      ensures (p * PAGE) % PAGE == 0
    {
      MulMod(p, PAGE);
    }

    lemma SparedOne(r: nat, s: nat, o: Obj, page: nat, addr: nat, size: nat, regs: map<nat, Region>,
                    m: map<nat, int>, m1: map<nat, int>, m2: map<nat, int>)
      requires r in regs && s in regs && o.page * PAGE <= o.addr && o.addr + o.size < o.page * PAGE + PAGE
      requires SameOutside(m1, m2, addr, addr + Cleared(size)) && addr % WORD == 0
      requires page * PAGE + HEADER <= addr && addr + Cleared(size) <= page * PAGE + PAGE
      requires if Fits(regs[r], size)
               then m1 == m && addr == Align(regs[r].allocfrom, WORD) && page == regs[r].page
                    && (o.page == page ==> o.addr + o.size <= regs[r].allocfrom)
               else o.page != page && SameOutside(m, m1, page * PAGE + HEADER, page * PAGE + PAGE)
      ensures SameWords(m, m2, o)
    {
      hide SameOutside, SameWords, Cleared, Align;
      AlignAbove(regs[r].allocfrom);
      SparesBelow(m1, m2, o, page, addr, addr + Cleared(size));
      if !Fits(regs[r], size) {
        PageWords(page);
        SparesBelow(m, m1, o, page, page * PAGE + HEADER, page * PAGE + PAGE);
        SameTwice(m, m1, m2, o);
      }
    }

    /** __rc_ralloc_small0, the fast path.  When the object fits, address, front and memory
        are what TypedRalloc makes of the same state; when not, it is TypedRalloc. */
    method RallocSmall0(r: nat, size: nat, i: nat, from: nat, lucky: bool) returns (addr: nat)
      requires Valid() && r in regions && Small(r, size) && Supplied(i, from, lucky)
      modifies this, pool
      ensures Valid() && r in objects && r in regions && r in old(objects) && regions == old(regions)[r := regions[r]]
      ensures objects == old(objects)[r := old(objects)[r] + [Obj(regions[r].page, addr, size)]]
      ensures addr % WORD == 0 && addr + Cleared(size) <= regions[r].page * PAGE + PAGE
      ensures ZeroWithin(mem, addr, addr + Cleared(size)) && Spared(old(objects), old(mem), mem)
      ensures Fits(old(regions)[r], size) ==>
                && addr == Align(old(regions)[r].allocfrom, WORD) && regions[r] == Bumped(old(regions)[r], size)
                && mem == Zeroed(old(mem), addr / WORD, Cleared(size) / WORD) && pool.free == old(pool.free)
                && available == old(available)[old(regions)[r].page := regions[r].allocfrom]
      ensures CanTake(old(View()), Luck(i, from, lucky)) && HasRegion(old(View()), r)
      ensures View() == TypedAllocated(old(View()), r, size, Luck(i, from, lucky))
      ensures addr == Address(Ready(old(View()), r, size, Luck(i, from, lucky)), r)
    {
      hide PagesOk, ObjectsOk, ListsOk, FrontOk, Align, SameOutside, SameWords, ZeroWithin, Zeroed, Cleared;
      Lists();
      var g := regions[r];
      if Align(g.allocfrom, WORD) + size >= g.page * PAGE + PAGE {
        addr := TypedRalloc(r, size, i, from, lucky);
        return;
      }
      Extents();
      OtherPages(r);
      AlignAbove(g.allocfrom);
      HeaderBelow(r);
      addr := Bump(r, size);
      ghost var page := regions[r].page;
      ClearStaysInPage(page * PAGE, addr, size) by { PageStart(page); }
      label bumped:
      Clear(addr, size);
      forall s, o | s in old(objects) && o in old(objects)[s] ensures SameWords(old(mem), mem, o) {
        SparedOne(r, s, o, page, addr, size, old(regions), old(mem), old@bumped(mem), mem);
      }
    }

    lemma HeaderBelow(r: nat)
      requires Valid() && r in regions
      ensures regions[r].page * PAGE + HEADER <= regions[r].allocfrom
    {
      assert RegionOk(r);
    }

    // ---- deletion -----------------------------------------------------------

    /** __deleteregion and free_all_pages: every page of the region goes to some free
        list, and no other region notices.  `pick` stands for the random choices. */
    method DeleteRegion(r: nat, pick: nat -> nat)
      requires Valid() && r in regions && forall n :: pick(n) < LISTS
      modifies this, pool
      ensures Valid() && r in old(owned) && regions == old(regions) - {r} && objects == old(objects) - {r}
      ensures forall p <- old(owned)[r] :: p in pool.place && pool.place[p].Free?
      ensures mem == old(mem) && available == old(available) && owner == old(owner)
      ensures |old(View()).free| == LISTS && View() == Deleted(old(View()), r, pick)
    {
      hide RegionOk, ListsOk, Freed, Chain, NoRepeats;
      Lists();
      var first := regions[r].pages;
      ghost var own := owned[r];
      Drop(r);
      FreePages(r, first, own, pick);
    }

    /** The region is no longer one; its pages are still its own. */
    method Drop(r: nat)
      requires Valid() && r in regions && r in owned && r in objects
      modifies this`regions, this`owned, this`objects
      ensures Valid() && regions == old(regions) - {r} && owned == old(owned) - {r} && objects == old(objects) - {r}
      ensures var own := old(owned)[r];
        && Chain(pool.next, old(regions)[r].pages, own) && NoRepeats(own)
        && forall k :: 0 <= k < |own| ==> own[k] in pool.place && pool.place[own[k]] == Owned(r)
    {
      hide ObjectsOk, FrontOk, ListsOk, Placed;
      assert RegionOk(r);
      OwnPlaces(r, regions[r], owned[r], pool.next, pool.place, owner);
      OwnChain(r, regions[r], owned[r], pool.next, pool.place, owner);
      regions := regions - {r};
      owned, objects := owned - {r}, objects - {r};
      forall s | s in regions ensures RegionOk(s) { assert old(RegionOk(s)); }
    }

    /** The loop of free_all_pages. */
    method FreePages(r: nat, first: Option<nat>, ghost own: seq<nat>, pick: nat -> nat)
      requires Valid() && r !in regions && |pool.free| == LISTS && forall n :: pick(n) < LISTS
      requires Chain(pool.next, first, own) && NoRepeats(own)
      requires forall k :: 0 <= k < |own| ==> own[k] in pool.place && pool.place[own[k]] == Owned(r)
      modifies pool
      ensures Valid() && |pool.free| == LISTS && pool.free == Freed(old(pool.free), own, pick, |own|) && pool.total == old(pool.total)
      ensures forall p <- own :: p in pool.place && pool.place[p].Free?
    {
      hide Valid, Freed, PutBack, Chain, NoRepeats;
      var n, p := 0, first;
      FreedStep(pool.free, own, pick, 0);
      assert own[0..] == own;
      ChainEnds(pool.next, p, own[n..]);
      while p != None
        invariant Valid() && n <= |own| && Chain(pool.next, p, own[n..]) && (p == None <==> own[n..] == [])
        invariant forall k :: n <= k < |own| ==> own[k] in pool.place && pool.place[own[k]] == Owned(r)
        invariant forall k :: 0 <= k < n ==> own[k] in pool.place && pool.place[own[k]].Free?
        invariant |pool.free| == LISTS && pool.free == Freed(old(pool.free), own, pick, n) && pool.total == old(pool.total)
        decreases |own| - n
      {
        ChainFirst(pool.next, p, own[n..]);
        var q := p.value;
        assert own[n..][1..] == own[n + 1..];
        var link := pool.next[q];
        LaterPages(own, n, q);
        OtherPlaces(own, n);
        ReleasePage(r, q, pick(n), link, own[n + 1..]);
        FreedStep(old(pool.free), own, pick, n);
        n := n + 1;
        p := link;
        ChainEnds(pool.next, p, own[n..]);
      }
    }

    lemma {:induction false} ChainEnds(next: map<nat, Option<nat>>, head: Option<nat>, s: seq<nat>)
      requires Chain(next, head, s)
      ensures head == None <==> s == []
    {
    }

    lemma {:induction false} ChainFirst(next: map<nat, Option<nat>>, head: Option<nat>, s: seq<nat>)
      requires Chain(next, head, s) && s != []
      ensures head == Some(s[0]) && s[0] in next && Chain(next, next[s[0]], s[1..])
    {
    }

    lemma OtherPlaces(own: seq<nat>, n: nat)
      requires NoRepeats(own) && n < |own|
      ensures forall k :: 0 <= k < |own| && k != n ==> own[k] != own[n]
    {
    }

    lemma {:induction false} FreedStep(free: seq<seq<nat>>, own: seq<nat>, pick: nat -> nat, n: nat)
      requires n <= |own| && forall k :: pick(k) < |free|
      ensures Freed(free, own, pick, 0) == free
      ensures n < |own| ==> Freed(free, own, pick, n + 1) == PutBack(Freed(free, own, pick, n), pick(n), own[n])
    {
      hide PutBack;
    }

    lemma LaterPages(own: seq<nat>, n: nat, q: nat)
      requires NoRepeats(own) && n < |own| && own[n] == q
      ensures q !in own[n + 1..]
    {
    }

    lemma {:induction false} OwnChain(r: nat, g: Region, own: seq<nat>, next: map<nat, Option<nat>>, place: map<nat, Place>, owner: map<nat, nat>)
      requires PagesOk(r, g, own, next, place, owner)
      ensures Chain(next, g.pages, own) && NoRepeats(own) && own[0..] == own
    {
    }

    /** One round of free_all_pages. */
    method ReleasePage(r: nat, q: nat, i: nat, ghost link: Option<nat>, ghost rest: seq<nat>)
      requires Valid() && r !in regions && i < LISTS && q in pool.place && pool.place[q] == Owned(r)
      requires Chain(pool.next, link, rest) && q !in rest && |pool.free| == LISTS
      modifies pool
      ensures Valid() && Chain(pool.next, link, rest)
      ensures pool.place == old(pool.place)[q := Free(i)]
      ensures |pool.free| == LISTS && pool.free == PutBack(old(pool.free), i, q) && pool.total == old(pool.total)
    {
      hide ObjectsOk, FrontOk, ListsOk, PagesOk;
      ghost var next, place := pool.next, pool.place;
      pool.Disown(q);
      pool.FreeSinglePage(q, i);
      ChainIn(next, link, rest);
      ChainFrame(next, pool.next, link, rest);
      hide Chain;
      forall s | s in regions ensures RegionOk(s) {
        assert old(RegionOk(s));
        PagesKept(s, regions[s], owned[s], next, place, owner, pool.next, pool.place, owner);
      }
    }
  }
}
