/** Serialization of regions (src/serialize.c): page records are written in one pass,
    and read in two, the first rebuilding the regions and a translation of addresses,
    the second filling the pages. */
module Serialize {

  const PAGE := 16384
  const MAP := 262144 // 1 << (32 - RPAGELOG)

  type Bytes = seq<nat>

  /** An allocation unit: its first page, by number, and its pages.  Big units may have
      several. */
  datatype Unit = Unit(page: nat, count: nat)

  /** The lists `pages` and `bigpages` of a region, in list order. */
  datatype Region = Region(pages: seq<Unit>, big: seq<Unit>)

  /** struct page_state, with the size in pages. */
  datatype Record = Record(first: bool, last: bool, big: bool, count: nat, page: nat)

  // ---- what is written ------------------------------------------------------

  function Reverse<T>(s: seq<T>): (r: seq<T>)
    ensures |r| == |s|
  {
    if s == [] then [] else Reverse(s[1..]) + [s[0]]
  }

  /** make_page_list: the list in reverse. */
  method MakePageList(pages: seq<Unit>) returns (list: seq<Unit>)
    ensures list == Reverse(pages)
  {
    list := [];
    for k := 0 to |pages|
      invariant list == Reverse(pages[..k])
    {
      ReverseSnoc(pages[..k], pages[k]);
      assert pages[..k] + [pages[k]] == pages[..k + 1];
      list := [pages[k]] + list;
    }
    assert pages[..|pages|] == pages;
  }

  lemma {:induction false} ReverseSnoc<T>(s: seq<T>, x: T)
    ensures Reverse(s + [x]) == [x] + Reverse(s)
  {
    if s != [] {
      assert (s + [x])[1..] == s[1..] + [x];
      ReverseSnoc(s[1..], x);
    }
  }

  lemma {:induction false} ReverseTwice<T>(s: seq<T>)
    ensures Reverse(Reverse(s)) == s
  {
    if s != [] {
      ReverseSnoc(Reverse(s[1..]), s[0]);
      ReverseTwice(s[1..]);
    }
  }

  function Size(u: Unit, big: bool): nat { if big then u.count else 1 }

  /** The records of one list of pages. */
  function ListRecords(list: seq<Unit>, first: bool, last: bool, big: bool): (r: seq<Record>)
    ensures |r| == |list|
  {
    if list == [] then []
    else [Record(first, |list| == 1 && last, big, Size(list[0], big), list[0].page)] + ListRecords(list[1..], false, last, big)
  }

  /** serialize_pages: one record for every page of the list. */
  method SerializePages(list: seq<Unit>, first: bool, last: bool, big: bool, state: seq<Record>) returns (state': seq<Record>)
    ensures state' == state + ListRecords(list, first, last, big)
  {
    state' := state;
    var isFirst := first;
    for k := 0 to |list|
      invariant isFirst == (first && k == 0)
      invariant state' + ListRecords(list[k..], isFirst, last, big) == state + ListRecords(list, first, last, big)
    {
      var record := Record(isFirst, k + 1 == |list| && last, big, Size(list[k], big), list[k].page);
      assert list[k..][1..] == list[k + 1..];
      isFirst := false;
      state' := state' + [record];
    }
  }

  function RegionRecords(r: Region): seq<Record> {
    ListRecords(Reverse(r.pages), true, r.big == [], false) + ListRecords(Reverse(r.big), false, r.big != [], true)
  }

  function AllRecords(rs: seq<Region>): seq<Record> {
    if rs == [] then [] else RegionRecords(rs[0]) + AllRecords(rs[1..])
  }

  /** serialize_region for every region. */
  method SerializeRegions(rs: seq<Region>) returns (state: seq<Record>)
    ensures state == AllRecords(rs)
  {
    hide AllRecords, ListRecords, Reverse;
    state := [];
    assert rs[0..] == rs && rs[|rs|..] == [];
    AllSplit([]);
    for k := 0 to |rs|
      invariant state + AllRecords(rs[k..]) == AllRecords(rs)
    {
      AllSplit(rs[k..]);
      var normal := MakePageList(rs[k].pages);
      var big := MakePageList(rs[k].big);
      NoneLeft(rs[k].big);
      assert rs[k..][1..] == rs[k + 1..];
      ghost var before := state;
      state := SerializePages(normal, true, big == [], false, state);
      state := SerializePages(big, false, big != [], true, state);
      assert state == before + RegionRecords(rs[k]);
    }
  }

  lemma {:induction false} NoneLeft<T>(s: seq<T>)
    ensures Reverse(s) == [] <==> s == []
  {
  }

  // ---- first pass: regions and translation ----------------------------------

  /** The region that a record starts or extends; `alloc` gives every unit its new
      place. */
  function AddPage(out: seq<Region>, a: Record, alloc: nat -> nat): seq<Region>
    requires a.first || out != []
  {
    if a.first then out + [Region([Unit(alloc(a.page), 1)], [])]
    else
      var r := out[|out| - 1];
      out[|out| - 1 := if a.big then r.(big := [Unit(alloc(a.page), a.count)] + r.big)
                       else r.(pages := [Unit(alloc(a.page), 1)] + r.pages)]
  }

  /** Records of a region come together, and the first of them says so. */
  predicate Starts(records: seq<Record>) { records == [] || records[0].first }

  function Rebuild(out: seq<Region>, records: seq<Record>, alloc: nat -> nat): seq<Region>
    requires out != [] || Starts(records)
    decreases |records|
  {
    if records == [] then out else Rebuild(AddPage(out, records[0], alloc), records[1..], alloc)
  }

  /** num_pages in allocate_regions. */
  function NumPages(a: Record): nat { if !a.first && a.big then a.count else 1 }

  /** The pages that a record translates. */
  predicate Covers(a: Record, q: nat) { a.page <= q < a.page + NumPages(a) }

  /** The last record that covers page q decides. */
  function Lookup(records: seq<Record>, alloc: nat -> nat, q: nat): nat {
    if records == [] then 0
    else
      var a := records[|records| - 1];
      if Covers(a, q) then (alloc(a.page) + (q - a.page)) * PAGE else Lookup(records[..|records| - 1], alloc, q)
  }

  /** allocate_regions: both results of the first pass. */
  method AllocateRegions(records: seq<Record>, alloc: nat -> nat, table: array<nat>) returns (out: seq<Region>)
    requires Starts(records) && table.Length == MAP && forall q :: 0 <= q < MAP ==> table[q] == 0
    requires forall k :: 0 <= k < |records| ==> records[k].page + NumPages(records[k]) <= MAP
    modifies table
    ensures out == Rebuild([], records, alloc)
    ensures forall q :: 0 <= q < MAP ==> table[q] == Lookup(records, alloc, q)
  {
    out := [];
    for k := 0 to |records|
      invariant out != [] || Starts(records[k..])
      invariant Rebuild(out, records[k..], alloc) == Rebuild([], records, alloc)
      invariant forall q :: 0 <= q < MAP ==> table[q] == Lookup(records[..k], alloc, q)
    {
      var a := records[k];
      var newpage := alloc(a.page);
      assert records[k..][1..] == records[k + 1..] && records[..k + 1][..k] == records[..k];
      out := AddPage(out, a, alloc);
      var n := NumPages(a);
      while n > 0
        invariant 0 <= n <= NumPages(a)
        invariant forall q :: 0 <= q < MAP ==>
          table[q] == if a.page + n <= q < a.page + NumPages(a) then (newpage + (q - a.page)) * PAGE
                     else Lookup(records[..k], alloc, q)
      {
        n := n - 1;
        table[a.page + n] := (newpage + n) * PAGE;
      }
    }
    assert records[..|records|] == records;
  }

  // ---- the regions come back ------------------------------------------------

  function MoveUnit(u: Unit, alloc: nat -> nat): Unit { Unit(alloc(u.page), u.count) }

  function Moved(s: seq<Unit>, alloc: nat -> nat): (m: seq<Unit>)
    ensures |m| == |s|
  {
    if s == [] then [] else [MoveUnit(s[0], alloc)] + Moved(s[1..], alloc)
  }

  function MoveRegion(r: Region, alloc: nat -> nat): Region {
    Region(Moved(r.pages, alloc), Moved(r.big, alloc))
  }

  function MoveAll(rs: seq<Region>, alloc: nat -> nat): (m: seq<Region>)
    ensures |m| == |rs|
  {
    if rs == [] then [] else [MoveRegion(rs[0], alloc)] + MoveAll(rs[1..], alloc)
  }

  /** Regular units are one page; every region has the page of its record. */
  predicate RegionOk(r: Region) {
    r.pages != [] && forall k :: 0 <= k < |r.pages| ==> r.pages[k].count == 1
  }

  lemma {:induction false} RebuildAppend(out: seq<Region>, a: seq<Record>, b: seq<Record>, alloc: nat -> nat)
    requires (out != [] || Starts(a)) && (out != [] || a != [] || Starts(b))
    ensures Rebuild(out, a, alloc) != [] || a == []
    ensures Rebuild(out, a + b, alloc) == Rebuild(Rebuild(out, a, alloc), b, alloc)
    decreases |a|
  {
    if a == [] {
      assert a + b == b;
    } else {
      assert (a + b)[0] == a[0] && (a + b)[1..] == a[1..] + b;
      RebuildAppend(AddPage(out, a[0], alloc), a[1..], b, alloc);
    }
  }

  lemma {:induction false} MovedAppend(s: seq<Unit>, t: seq<Unit>, alloc: nat -> nat)
    ensures Moved(s + t, alloc) == Moved(s, alloc) + Moved(t, alloc)
  {
    if s == [] {
      assert s + t == t;
    } else {
      assert (s + t)[1..] == s[1..] + t;
      MovedAppend(s[1..], t, alloc);
    }
  }

  /** The rest of one list, read into the last region. */
  lemma {:induction false} RebuildList(out: seq<Region>, r: Region, list: seq<Unit>, last: bool, big: bool, alloc: nat -> nat)
    requires !big ==> forall k :: 0 <= k < |list| ==> list[k].count == 1
    ensures Rebuild(out + [r], ListRecords(list, false, last, big), alloc) ==
      out + [if big then r.(big := Moved(Reverse(list), alloc) + r.big) else r.(pages := Moved(Reverse(list), alloc) + r.pages)]
    decreases |list|
  {
    if list == [] {
      assert Moved(Reverse(list), alloc) + r.big == r.big && Moved(Reverse(list), alloc) + r.pages == r.pages;
    } else {
      var u := MoveUnit(list[0], alloc);
      var r' := if big then r.(big := [u] + r.big) else r.(pages := [u] + r.pages);
      var records := ListRecords(list, false, last, big);
      assert AddPage(out + [r], records[0], alloc) == out + [r'];
      assert records[1..] == ListRecords(list[1..], false, last, big);
      RebuildList(out, r', list[1..], last, big, alloc);
      MovedAppend(Reverse(list[1..]), [list[0]], alloc);
      assert Moved([list[0]], alloc) == [u];
      assert Moved(Reverse(list), alloc) + r.big == Moved(Reverse(list[1..]), alloc) + ([u] + r.big);
      assert Moved(Reverse(list), alloc) + r.pages == Moved(Reverse(list[1..]), alloc) + ([u] + r.pages);
    }
  }

  lemma {:induction false} RebuildRegion(out: seq<Region>, r: Region, alloc: nat -> nat)
    requires RegionOk(r)
    ensures Starts(RegionRecords(r)) && RegionRecords(r) != []
    ensures Rebuild(out, RegionRecords(r), alloc) == out + [MoveRegion(r, alloc)]
  {
    var list, last := Reverse(r.pages), r.big == [];
    NoneLeft(r.pages);
    ReverseOnes(r.pages);
    var normal := ListRecords(list, true, last, false);
    var big := ListRecords(Reverse(r.big), false, !last, true);
    RebuildAppend(out, normal, big, alloc);
    // the first page starts the region
    var u := MoveUnit(list[0], alloc);
    assert normal[1..] == ListRecords(list[1..], false, last, false);
    assert AddPage(out, normal[0], alloc) == out + [Region([u], [])];
    RebuildList(out, Region([u], []), list[1..], last, false, alloc);
    ReverseTwice(r.pages);
    MovedAppend(Reverse(list[1..]), [list[0]], alloc);
    assert Moved([list[0]], alloc) == [u];
    assert Rebuild(out, normal, alloc) == out + [Region(Moved(r.pages, alloc), [])];
    RebuildList(out, Region(Moved(r.pages, alloc), []), Reverse(r.big), !last, true, alloc);
    ReverseTwice(r.big);
    assert Moved(r.big, alloc) + [] == Moved(r.big, alloc);
  }

  lemma {:induction false} ReverseOnes(s: seq<Unit>)
    requires forall k :: 0 <= k < |s| ==> s[k].count == 1
    ensures forall k :: 0 <= k < |s| ==> Reverse(s)[k].count == 1
  {
    if s != [] { ReverseOnes(s[1..]); }
  }

  /** Reading what was written gives back the regions, both lists in the same order and
      with the same sizes, every unit at its new place. */
  lemma {:induction false} RegionsComeBack(out: seq<Region>, rs: seq<Region>, alloc: nat -> nat)
    requires forall r <- rs :: RegionOk(r)
    ensures Starts(AllRecords(rs)) && Rebuild(out, AllRecords(rs), alloc) == out + MoveAll(rs, alloc)
    decreases |rs|
  {
    if rs == [] {
      assert out + MoveAll(rs, alloc) == out;
    } else {
      RebuildRegion(out, rs[0], alloc);
      RegionsComeBack(out + [MoveRegion(rs[0], alloc)], rs[1..], alloc);
      RebuildAppend(out, RegionRecords(rs[0]), AllRecords(rs[1..]), alloc);
      assert out + [MoveRegion(rs[0], alloc)] + MoveAll(rs[1..], alloc) == out + MoveAll(rs, alloc);
    }
  }

  // ---- addresses are translated ---------------------------------------------

  /** translate_pointer, with page addresses in the table. */
  function Translate(records: seq<Record>, alloc: nat -> nat, addr: nat): nat {
    Lookup(records, alloc, addr / PAGE) + addr % PAGE
  }

  /** The units written do not overlap. */
  ghost predicate Disjoint(records: seq<Record>) {
    forall k, l :: 0 <= k < l < |records| ==>
      records[k].page + NumPages(records[k]) <= records[l].page || records[l].page + NumPages(records[l]) <= records[k].page
  }

  lemma {:induction false} LookupAt(records: seq<Record>, alloc: nat -> nat, k: nat, q: nat)
    requires Disjoint(records) && k < |records| && Covers(records[k], q)
    ensures Lookup(records, alloc, q) == (alloc(records[k].page) + (q - records[k].page)) * PAGE
  {
    var n := |records| - 1;
    if k < n {
      assert records[..n][k] == records[k];
      LookupAt(records[..n], alloc, k, q);
    }
  }

  /** A page that was not written translates to NULL, and so does NULL itself when
      nothing was written at address 0. */
  lemma {:induction false} LookupNone(records: seq<Record>, alloc: nat -> nat, q: nat)
    requires forall k :: 0 <= k < |records| ==> !Covers(records[k], q)
    ensures Lookup(records, alloc, q) == 0
  {
    if records != [] {
      var n := |records| - 1;
      assert forall k :: 0 <= k < n ==> records[..n][k] == records[k];
      LookupNone(records[..n], alloc, q);
    }
  }

  /** The record of the j-th entry of a list. */
  lemma {:induction false} ListRecordAt(list: seq<Unit>, first: bool, last: bool, big: bool, j: nat)
    requires j < |list|
    ensures var a := ListRecords(list, first, last, big)[j];
      a.page == list[j].page && a.count == Size(list[j], big) && a.big == big && a.first == (first && j == 0)
      && a.last == (last && j == |list| - 1)
  {
    if j > 0 { ListRecordAt(list[1..], false, last, big, j - 1); }
  }

  lemma {:induction false} InReverse<T>(s: seq<T>, x: T) returns (j: nat)
    requires x in s
    ensures j < |s| && Reverse(s)[j] == x
  {
    if s[0] == x { j := |s| - 1; } else { j := InReverse(s[1..], x); }
  }

  /** Where the records of region i start. */
  lemma {:induction false} RecordsSplit(rs: seq<Region>, i: nat)
    requires i < |rs|
    ensures AllRecords(rs) == AllRecords(rs[..i]) + (RegionRecords(rs[i]) + AllRecords(rs[i + 1..]))
  {
    if i == 0 {
      assert rs[..0] == [];
    } else {
      RecordsSplit(rs[1..], i - 1);
      assert rs[1..][..i - 1] == rs[..i][1..] && rs[1..][i - 1 + 1..] == rs[i + 1..] && rs[..i][0] == rs[0];
    }
  }

  /** Every unit of a region has its record. */
  lemma UnitRecord(r: Region, u: Unit) returns (j: nat)
    requires RegionOk(r) && (u in r.pages || u in r.big)
    ensures j < |RegionRecords(r)| && RegionRecords(r)[j].page == u.page && NumPages(RegionRecords(r)[j]) == u.count
  {
    var list := Reverse(r.pages);
    if u in r.pages {
      j := InReverse(r.pages, u);
      ListRecordAt(list, true, r.big == [], false, j);
    } else {
      var k := InReverse(r.big, u);
      ListRecordAt(Reverse(r.big), false, r.big != [], true, k);
      j := |list| + k;
    }
  }

  lemma {:induction false} OutOfReverse<T>(s: seq<T>, j: nat)
    requires j < |s|
    ensures Reverse(s)[j] in s
  {
    if j < |s| - 1 { OutOfReverse(s[1..], j); }
  }

  /** And every record of a region has its unit. */
  lemma RecordUnit(r: Region, j: nat) returns (u: Unit)
    requires RegionOk(r) && j < |RegionRecords(r)|
    ensures (u in r.pages || u in r.big) && RegionRecords(r)[j].page == u.page && NumPages(RegionRecords(r)[j]) == u.count
  {
    var list, big := Reverse(r.pages), Reverse(r.big);
    if j < |list| {
      u := list[j];
      OutOfReverse(r.pages, j);
      ReverseOnes(r.pages);
      ListRecordAt(list, true, r.big == [], false, j);
    } else {
      u := big[j - |list|];
      OutOfReverse(r.big, j - |list|);
      ListRecordAt(big, false, r.big != [], true, j - |list|);
    }
  }

  lemma {:induction false} SomeUnit(rs: seq<Region>, k: nat) returns (r: Region, u: Unit)
    requires (forall r <- rs :: RegionOk(r)) && k < |AllRecords(rs)|
    ensures r in rs && (u in r.pages || u in r.big) && AllRecords(rs)[k].page == u.page && NumPages(AllRecords(rs)[k]) == u.count
  {
    hide AllRecords, RegionRecords, RegionOk, NumPages;
    AllSplit(rs);
    if k < |RegionRecords(rs[0])| {
      r := rs[0];
      u := RecordUnit(r, k);
    } else {
      r, u := SomeUnit(rs[1..], k - |RegionRecords(rs[0])|);
    }
  }

  lemma PageOffset(p: nat, x: nat)
    ensures (p * PAGE + x) / PAGE == p + x / PAGE && (p * PAGE + x) % PAGE == x % PAGE
  {
  }

  /** Every address inside a unit goes to the same offset in the unit's new place. */
  lemma {:induction false} TranslationFaithful(rs: seq<Region>, alloc: nat -> nat, i: nat, u: Unit, x: nat)
    requires (forall r <- rs :: RegionOk(r)) && Disjoint(AllRecords(rs)) && i < |rs|
    requires (u in rs[i].pages || u in rs[i].big) && x < u.count * PAGE
    ensures Translate(AllRecords(rs), alloc, u.page * PAGE + x) == alloc(u.page) * PAGE + x
  {
    hide AllRecords, RegionRecords, Lookup, RegionOk, Disjoint;
    var j := UnitRecord(rs[i], u);
    RecordsSplit(rs, i);
    var k := |AllRecords(rs[..i])| + j;
    var q := x / PAGE;
    PageOffset(u.page, x);
    LookupAt(AllRecords(rs), alloc, k, u.page + q);
  }

  // ---- second pass: contents and updaters -----------------------------------

  /** How many regions end in these records. */
  function Lasts(records: seq<Record>): nat {
    if records == [] then 0 else Lasts(records[..|records| - 1]) + (if records[|records| - 1].last then 1 else 0)
  }

  /** What an update function makes of the pages of a unit; it works in place. */
  type Updater = seq<Bytes> -> seq<Bytes>

  ghost predicate InPlace(update: Updater) { forall d: seq<Bytes> :: |update(d)| == |d| }

  /** The units at new addresses, so long each, do not overlap. */
  ghost predicate Apart(at: seq<nat>, count: seq<nat>)
    requires |at| == |count|
  {
    forall k, l :: 0 <= k < l < |at| ==> at[k] + count[k] * PAGE <= at[l] || at[l] + count[l] * PAGE <= at[k]
  }

  function Addresses(records: seq<Record>, table: seq<nat>): (at: seq<nat>)
    requires forall k :: 0 <= k < |records| ==> records[k].page < |table|
    ensures |at| == |records|
  {
    seq(|records|, k requires 0 <= k < |records| => table[records[k].page])
  }

  function Counts(data: seq<seq<Bytes>>): (n: seq<nat>)
    ensures |n| == |data|
  {
    seq(|data|, k requires 0 <= k < |data| => |data[k]|)
  }

  lemma PagesApart(at: seq<nat>, count: seq<nat>, k: nat, p: nat, l: nat, q: nat)
    requires |at| == |count| && Apart(at, count) && k < |at| && l < |at| && k != l && p < count[k] && q < count[l]
    ensures at[k] + p * PAGE != at[l] + q * PAGE
  {
  }

  /** Every page of unit k holds what the updater in force has made of its dump. */
  ghost predicate Filled(store: map<nat, Bytes>, at: nat, pages: seq<Bytes>) {
    forall p :: 0 <= p < |pages| ==> at + p * PAGE in store && store[at + p * PAGE] == pages[p]
  }

  lemma FilledStays(store: map<nat, Bytes>, store': map<nat, Bytes>, at: seq<nat>, count: seq<nat>, k: nat, l: nat, pages: seq<Bytes>)
    requires |at| == |count| && Apart(at, count) && k < |at| && l < |at| && k != l && Filled(store, at[k], pages) && |pages| == count[k]
    requires forall a :: a in store && (forall q: nat :: q < count[l] ==> a != at[l] + q * PAGE) ==> a in store' && store'[a] == store[a]
    ensures Filled(store', at[k], pages)
  {
    forall p | 0 <= p < |pages| ensures at[k] + p * PAGE in store' && store'[at[k] + p * PAGE] == pages[p] {
      forall q: nat | q < count[l] ensures at[k] + p * PAGE != at[l] + q * PAGE { PagesApart(at, count, k, p, l, q); }
    }
  }

  /** Address a is that of one of n pages from `at` on. */
  ghost predicate InUnit(a: nat, at: nat, n: nat) { exists q: nat :: q < n && a == at + q * PAGE }

  lemma UnitHas(at: nat, p: nat, n: nat)
    requires p < n
    ensures InUnit(at + p * PAGE, at, n)
  {
  }

  /** Nothing but the first k units has been filled. */
  ghost predicate OnlyThese(store: map<nat, Bytes>, at: seq<nat>, made: seq<seq<Bytes>>, k: nat)
    requires k <= |at| == |made|
  {
    forall a :: a in store ==> exists l :: 0 <= l < k && InUnit(a, at[l], |made[l]|)
  }

  lemma NothingYet(at: seq<nat>, made: seq<seq<Bytes>>)
    requires |at| == |made|
    ensures OnlyThese(map[], at, made, 0)
  {
  }

  lemma OnlyNext(store: map<nat, Bytes>, store': map<nat, Bytes>, at: seq<nat>, made: seq<seq<Bytes>>, k: nat)
    requires k < |at| == |made| && OnlyThese(store, at, made, k)
    requires forall a :: a in store' ==> a in store || InUnit(a, at[k], |made[k]|)
    ensures OnlyThese(store', at, made, k + 1)
  {
    hide InUnit;
  }

  lemma OnlyUnits(store: map<nat, Bytes>, at: seq<nat>, made: seq<seq<Bytes>>, data: seq<seq<Bytes>>)
    requires |at| == |made| && OnlyThese(store, at, made, |at|) && Counts(made) == Counts(data)
    ensures |data| == |at| && forall a :: a in store ==> exists k :: 0 <= k < |at| && InUnit(a, at[k], |data[k]|)
  {
    hide InUnit;
    forall a | a in store ensures exists k :: 0 <= k < |at| && InUnit(a, at[k], |data[k]|) {
      var k :| 0 <= k < |at| && InUnit(a, at[k], |made[k]|);
      assert Counts(made)[k] == Counts(data)[k];
    }
  }

  /** The read of a whole unit, and its update. */
  method FillUnit(store: map<nat, Bytes>, at: nat, pages: seq<Bytes>) returns (store': map<nat, Bytes>)
    ensures Filled(store', at, pages)
    ensures forall a :: a in store && (forall q: nat :: q < |pages| ==> a != at + q * PAGE) ==> a in store' && store'[a] == store[a]
    ensures forall a :: a in store' ==> a in store || InUnit(a, at, |pages|)
  {
    hide InUnit;
    store' := store;
    for p := 0 to |pages|
      invariant Filled(store', at, pages[..p])
      invariant forall a :: a in store' ==> a in store || InUnit(a, at, |pages|)
      invariant forall a :: a in store && (forall q: nat :: q < |pages| ==> a != at + q * PAGE) ==> a in store' && store'[a] == store[a]
    {
      UnitHas(at, p, |pages|);
      store' := store'[at + p * PAGE := pages[p]];
    }
    assert pages[..|pages|] == pages;
  }

  /** The first k units are filled with what was made of them. */
  ghost predicate FilledTo(store: map<nat, Bytes>, at: seq<nat>, made: seq<seq<Bytes>>, k: nat)
    requires k <= |at| == |made|
  {
    forall l :: 0 <= l < k ==> Filled(store, at[l], made[l])
  }

  lemma FilledNext(store: map<nat, Bytes>, store': map<nat, Bytes>, at: seq<nat>, made: seq<seq<Bytes>>, k: nat)
    requires k < |at| == |made| && FilledTo(store, at, made, k) && Apart(at, Counts(made)) && Filled(store', at[k], made[k])
    requires forall a :: a in store && (forall q: nat :: q < |made[k]| ==> a != at[k] + q * PAGE) ==> a in store' && store'[a] == store[a]
    ensures FilledTo(store', at, made, k + 1)
  {
    hide Filled, Apart;
    forall l | 0 <= l < k ensures Filled(store', at[l], made[l]) {
      FilledStays(store, store', at, Counts(made), l, k, made[l]);
    }
  }

  /** What the updaters in force make of the dumps. */
  function Made(records: seq<Record>, data: seq<seq<Bytes>>, updaters: seq<Updater>): (m: seq<seq<Bytes>>)
    requires |data| == |records| && forall k :: 0 <= k < |records| ==> Lasts(records[..k]) < |updaters|
    ensures |m| == |data|
  {
    seq(|data|, k requires 0 <= k < |data| => updaters[Lasts(records[..k])](data[k]))
  }

  lemma MadeCounts(records: seq<Record>, data: seq<seq<Bytes>>, updaters: seq<Updater>)
    requires |data| == |records| && forall k :: 0 <= k < |records| ==> Lasts(records[..k]) < |updaters|
    requires forall i :: 0 <= i < |updaters| ==> InPlace(updaters[i])
    ensures Counts(Made(records, data, updaters)) == Counts(data)
  {
    forall k | 0 <= k < |data| ensures |Made(records, data, updaters)[k]| == |data[k]| {
      assert InPlace(updaters[Lasts(records[..k])]);
    }
  }

  /** deserialize_pages: the pages of unit k get their dump, updated by the updater in
      force. */
  method DeserializePages(records: seq<Record>, data: seq<seq<Bytes>>, table: array<nat>, updaters: seq<Updater>)
      returns (store: map<nat, Bytes>)
    requires |data| == |records| && table.Length == MAP && forall k :: 0 <= k < |records| ==> records[k].page < MAP
    requires Apart(Addresses(records, table[..]), Counts(data))
    requires forall k :: 0 <= k < |records| ==> Lasts(records[..k]) < |updaters|
    requires forall i :: 0 <= i < |updaters| ==> InPlace(updaters[i])
    ensures forall k :: 0 <= k < |records| ==>
      Filled(store, table[records[k].page], updaters[Lasts(records[..k])](data[k]))
    ensures forall a :: a in store ==> exists k :: 0 <= k < |records| && InUnit(a, table[records[k].page], |data[k]|)
  {
    hide Filled, Apart, InPlace, Lasts, InUnit, OnlyThese;
    store := map[];
    var update := 0;
    ghost var at, made := Addresses(records, table[..]), Made(records, data, updaters);
    MadeCounts(records, data, updaters);
    assert update == Lasts(records[..0]) by { NoLasts(records); }
    NothingYet(at, made);
    for k := 0 to |records|
      invariant update == Lasts(records[..k])
      invariant FilledTo(store, at, made, k)
      invariant OnlyThese(store, at, made, k)
    {
      var newp := table[records[k].page];
      ghost var before := store;
      store := FillUnit(store, newp, updaters[update](data[k]));
      FilledNext(before, store, at, made, k);
      OnlyNext(before, store, at, made, k);
      LastsNext(records, k);
      if records[k].last { update := update + 1; }
    }
    forall k | 0 <= k < |records| ensures Filled(store, table[records[k].page], updaters[Lasts(records[..k])](data[k])) {
      assert Filled(store, at[k], made[k]);
    }
    OnlyUnits(store, at, made, data);
    forall a | a in store ensures exists k :: 0 <= k < |records| && InUnit(a, table[records[k].page], |data[k]|) {
      var k :| 0 <= k < |records| && InUnit(a, at[k], |data[k]|);
      assert InUnit(a, table[records[k].page], |data[k]|);
    }
  }

  lemma NoLasts(records: seq<Record>)
    ensures Lasts(records[..0]) == 0
  {
  }

  lemma LastsNext(records: seq<Record>, k: nat)
    requires k < |records|
    ensures Lasts(records[..k + 1]) == Lasts(records[..k]) + (if records[k].last then 1 else 0)
  {
    assert records[..k + 1][..k] == records[..k];
  }

  lemma {:induction false} LastsAppend(a: seq<Record>, b: seq<Record>)
    ensures Lasts(a + b) == Lasts(a) + Lasts(b)
    decreases |b|
  {
    if b == [] {
      assert a + b == a;
    } else {
      var n := |b| - 1;
      assert (a + b)[..|a + b| - 1] == a + b[..n];
      LastsAppend(a, b[..n]);
    }
  }

  lemma {:induction false} LastsNone(a: seq<Record>)
    requires forall k :: 0 <= k < |a| ==> !a[k].last
    ensures Lasts(a) == 0
  {
    if a != [] { LastsNone(a[..|a| - 1]); }
  }

  /** Only the very last record of a region is marked. */
  lemma OneLast(r: Region, j: nat)
    requires RegionOk(r) && j < |RegionRecords(r)|
    ensures RegionRecords(r)[j].last <==> j == |RegionRecords(r)| - 1
  {
    var list, big := Reverse(r.pages), Reverse(r.big);
    NoneLeft(r.big);
    if j < |list| {
      ListRecordAt(list, true, r.big == [], false, j);
    } else {
      ListRecordAt(big, false, r.big != [], true, j - |list|);
    }
  }

  lemma LastsRegion(r: Region, j: nat)
    requires RegionOk(r) && j <= |RegionRecords(r)|
    ensures Lasts(RegionRecords(r)[..j]) == if j == |RegionRecords(r)| then 1 else 0
  {
    var a := RegionRecords(r);
    forall k | 0 <= k < |a| ensures a[k].last <==> k == |a| - 1 { OneLast(r, k); }
    NoneLeft(r.pages);
    var n := |a| - 1;
    if j == |a| {
      LastsNone(a[..n]);
      assert a[..j][..n] == a[..n];
    } else {
      LastsNone(a[..j]);
    }
  }

  lemma {:induction false} LastsAll(rs: seq<Region>)
    requires forall r <- rs :: RegionOk(r)
    ensures Lasts(AllRecords(rs)) == |rs|
  {
    if rs != [] {
      LastsRegion(rs[0], |RegionRecords(rs[0])|);
      assert RegionRecords(rs[0])[..|RegionRecords(rs[0])|] == RegionRecords(rs[0]);
      LastsAll(rs[1..]);
      LastsAppend(RegionRecords(rs[0]), AllRecords(rs[1..]));
    }
  }

  /** The k-th updater meets exactly the pages of the k-th region. */
  lemma {:induction false} UpdaterOfRegion(rs: seq<Region>, i: nat, j: nat)
    requires (forall r <- rs :: RegionOk(r)) && i < |rs| && j < |RegionRecords(rs[i])|
    ensures |AllRecords(rs[..i])| + j < |AllRecords(rs)|
    ensures AllRecords(rs)[|AllRecords(rs[..i])| + j] == RegionRecords(rs[i])[j]
    ensures Lasts(AllRecords(rs)[..|AllRecords(rs[..i])| + j]) == i
  {
    hide AllRecords, RegionRecords, Lasts, RegionOk;
    RecordsSplit(rs, i);
    assert forall r <- rs[..i] :: r in rs;
    LastsAll(rs[..i]);
    LastsRegion(rs[i], j);
    var before := AllRecords(rs[..i]);
    LastsAppend(before, RegionRecords(rs[i])[..j]);
    assert AllRecords(rs)[..|before| + j] == before + RegionRecords(rs[i])[..j];
  }

  // ---- the round trip -------------------------------------------------------

  lemma {:induction false} AllSplit(rs: seq<Region>)
    ensures AllRecords(rs) == if rs == [] then [] else RegionRecords(rs[0]) + AllRecords(rs[1..])
  {
  }

  lemma {:induction false} NoRecords(rs: seq<Region>)
    ensures AllRecords(rs) != [] ==> rs != []
  {
  }

  lemma {:induction false} UpdatersSuffice(rs: seq<Region>, k: nat)
    requires (forall r <- rs :: RegionOk(r)) && k < |AllRecords(rs)|
    ensures Lasts(AllRecords(rs)[..k]) < |rs|
    decreases |rs|
  {
    hide AllRecords, RegionRecords, Lasts, RegionOk;
    NoRecords(rs);
    AllSplit(rs);
    var a, rest := RegionRecords(rs[0]), AllRecords(rs[1..]);
    if k < |a| {
      LastsRegion(rs[0], k);
      assert (a + rest)[..k] == a[..k];
    } else {
      UpdatersSuffice(rs[1..], k - |a|);
      LastsRegion(rs[0], |a|);
      assert a[..|a|] == a;
      assert (a + rest)[..k] == a + rest[..k - |a|];
      LastsAppend(a, rest[..k - |a|]);
    }
  }

  /** The pages of a unit as they were written. */
  function Dumped(dump: nat -> Bytes, page: nat, count: nat): (d: seq<Bytes>)
    ensures |d| == count
  {
    seq(count, p requires 0 <= p < count => dump(page + p))
  }

  /** The new units do not overlap. */
  ghost predicate NewDisjoint(records: seq<Record>, alloc: nat -> nat) {
    forall k, l :: 0 <= k < l < |records| ==>
      || alloc(records[k].page) + NumPages(records[k]) <= alloc(records[l].page)
      || alloc(records[l].page) + NumPages(records[l]) <= alloc(records[k].page)
  }

  lemma NewApart(records: seq<Record>, alloc: nat -> nat, table: seq<nat>, data: seq<seq<Bytes>>)
    requires NewDisjoint(records, alloc) && |data| == |records| && forall k :: 0 <= k < |records| ==> records[k].page < |table|
    requires forall k :: 0 <= k < |records| ==> table[records[k].page] == alloc(records[k].page) * PAGE && |data[k]| == NumPages(records[k])
    ensures Apart(Addresses(records, table), Counts(data))
  {
    forall k, l | 0 <= k < l < |records|
      ensures var at, count := Addresses(records, table), Counts(data);
        at[k] + count[k] * PAGE <= at[l] || at[l] + count[l] * PAGE <= at[k]
    {
      assert alloc(records[k].page) + |data[k]| <= alloc(records[l].page) || alloc(records[l].page) + |data[l]| <= alloc(records[k].page);
    }
  }

  /** Address a is a page of some unit of the regions, at its new place. */
  ghost predicate Belongs(rs: seq<Region>, alloc: nat -> nat, a: nat) {
    exists r, u :: r in rs && (u in r.pages || u in r.big) && InUnit(a, alloc(u.page) * PAGE, u.count)
  }

  ghost predicate Recorded(records: seq<Record>, alloc: nat -> nat, a: nat) {
    exists k :: 0 <= k < |records| && InUnit(a, alloc(records[k].page) * PAGE, NumPages(records[k]))
  }

  /** serialize and deserialize: the regions come back in order, with their lists in
      order, and every page of unit u of region i holds what updater i has made of it. */
  method RoundTrip(rs: seq<Region>, dump: nat -> Bytes, alloc: nat -> nat, updaters: seq<Updater>)
      returns (out: seq<Region>, store: map<nat, Bytes>)
    requires (forall r <- rs :: RegionOk(r)) && |updaters| == |rs| && Disjoint(AllRecords(rs))
    requires forall k :: 0 <= k < |AllRecords(rs)| ==>
               AllRecords(rs)[k].page + NumPages(AllRecords(rs)[k]) <= MAP && NumPages(AllRecords(rs)[k]) > 0
    requires NewDisjoint(AllRecords(rs), alloc) && forall i :: 0 <= i < |updaters| ==> InPlace(updaters[i])
    ensures out == MoveAll(rs, alloc)
    ensures forall i, u :: 0 <= i < |rs| && (u in rs[i].pages || u in rs[i].big) ==>
      Filled(store, alloc(u.page) * PAGE, updaters[i](Dumped(dump, u.page, u.count)))
    ensures forall a :: a in store ==> Belongs(rs, alloc, a)
  {
    hide AllRecords, Lookup, Lasts, RegionOk, Rebuild, MoveAll, RegionRecords, Starts, NewDisjoint, Apart, Filled, InUnit;
    var records := SerializeRegions(rs);
    var data: seq<seq<Bytes>> := seq(|records|, k requires 0 <= k < |records| => Dumped(dump, records[k].page, NumPages(records[k])));
    RegionsComeBack([], rs, alloc);
    var table := new nat[MAP](_ => 0);
    out := AllocateRegions(records, alloc, table);
    assert [] + MoveAll(rs, alloc) == MoveAll(rs, alloc);
    forall k | 0 <= k < |records|
      ensures table[records[k].page] == alloc(records[k].page) * PAGE && Lasts(records[..k]) < |updaters|
    {
      LookupAt(records, alloc, k, records[k].page);
      UpdatersSuffice(rs, k);
    }
    NewApart(records, alloc, table[..], data);
    store := DeserializePages(records, data, table, updaters);
    hide Dumped;
    forall i, u | 0 <= i < |rs| && (u in rs[i].pages || u in rs[i].big)
      ensures Filled(store, alloc(u.page) * PAGE, updaters[i](Dumped(dump, u.page, u.count)))
    {
      var k := RecordOf(rs, i, u);
      assert Filled(store, table[records[k].page], updaters[Lasts(records[..k])](data[k]));
    }
    forall a | a in store ensures Recorded(records, alloc, a) {
      var k :| 0 <= k < |records| && InUnit(a, table[records[k].page], |data[k]|);
      assert InUnit(a, alloc(records[k].page) * PAGE, NumPages(records[k]));
    }
    NothingElse(rs, alloc, store);
  }

  /** What was filled belongs to some unit of some region. */
  lemma {:induction false} NothingElse(rs: seq<Region>, alloc: nat -> nat, store: map<nat, Bytes>)
    requires forall r <- rs :: RegionOk(r)
    requires forall a :: a in store ==> Recorded(AllRecords(rs), alloc, a)
    ensures forall a :: a in store ==> Belongs(rs, alloc, a)
  {
    hide AllRecords, RegionOk, NumPages, InUnit;
    forall a | a in store ensures Belongs(rs, alloc, a) {
      var k :| 0 <= k < |AllRecords(rs)| && InUnit(a, alloc(AllRecords(rs)[k].page) * PAGE, NumPages(AllRecords(rs)[k]));
      var r, u := SomeUnit(rs, k);
    }
  }

  /** The record of a unit, and the updater that meets it. */
  lemma RecordOf(rs: seq<Region>, i: nat, u: Unit) returns (k: nat)
    requires (forall r <- rs :: RegionOk(r)) && i < |rs| && (u in rs[i].pages || u in rs[i].big)
    ensures k < |AllRecords(rs)| && AllRecords(rs)[k].page == u.page && NumPages(AllRecords(rs)[k]) == u.count
    ensures Lasts(AllRecords(rs)[..k]) == i
  {
    hide AllRecords, RegionRecords, Lasts, RegionOk, NumPages;
    var j := UnitRecord(rs[i], u);
    UpdaterOfRegion(rs, i, j);
    k := |AllRecords(rs[..i])| + j;
  }
}
