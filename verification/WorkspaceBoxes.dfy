/** The canonical boxes of a workspace value (backend/app/agent_orchestration/sanitization.py). */
module WorkspaceBoxes {
  import opened Prelude
  import opened Ordering

  /** A page entry: absent or otherwise false, a number, a text denoting an integer, or one that cannot be read. */
  datatype PageValue = Absent | Number(value: real) | Digits(n: int) | Unreadable

  /** A coordinate that cannot be read as a number is `None`. */
  type Coordinate = Option<real>

  /**
   * An item of the list: a dictionary with its `bbox` list, if it has one of four entries or more, and all its other
   * entries, or anything else.
   */
  datatype Item<T> = NoDict
    | Item(pageNumber: PageValue, page: PageValue, bbox: Option<Corners>, sides: Corners, rest: T)

  datatype Corners = Corners(x0: Coordinate, y0: Coordinate, x1: Coordinate, y1: Coordinate)

  /** The normalised geometry of a box. */
  datatype Box = Box(page: int, x0: real, y0: real, x1: real, y1: real)

  const LIMIT := 2

  /** Rounding to two decimals is a library function. */
  ghost predicate RoundLaw(round: real -> real) {
    Monotone(round) && forall x :: round(round(x)) == round(x)
  }

  predicate Truthy(v: PageValue) {
    match v
    case Absent => false
    case Number(r) => r != 0.0
    case Digits(_) => true
    case Unreadable => true
  }

  /** int(x): towards zero. */
  function Truncate(r: real): int {
    if r >= 0.0 then r.Floor else -((-r).Floor)
  }

  function ToInt(v: PageValue): Option<int> {
    match v
    case Absent => None
    case Number(r) => Some(Truncate(r))
    case Digits(n) => Some(n)
    case Unreadable => None
  }

  /** int(item.get("page_number") or item.get("page") or 1) */
  function PageOf<T>(item: Item<T>): Option<int>
    requires item.Item?
  {
    if Truthy(item.pageNumber) then ToInt(item.pageNumber)
    else if Truthy(item.page) then ToInt(item.page)
    else Some(1)
  }

  function Min(a: real, b: real): real {
    if b < a then b else a
  }

  function Max(a: real, b: real): real {
    if b > a then b else a
  }

  function Normalize(round: real -> real, page: int, x0: real, y0: real, x1: real, y1: real): Box {
    Box(page, round(Min(x0, x1)), round(Min(y0, y1)), round(Max(x0, x1)), round(Max(y0, y1)))
  }

  /** The geometry of an item, or nothing when its page or a coordinate cannot be read. */
  function Read<T>(round: real -> real, item: Item<T>): Option<Box> {
    if item.NoDict? then None
    else
      var c := if item.bbox.Some? then item.bbox.value else item.sides;
      if PageOf(item).None? || c.x0.None? || c.y0.None? || c.x1.None? || c.y1.None? then None
      else Some(Normalize(round, PageOf(item).value, c.x0.value, c.y0.value, c.x1.value, c.y1.value))
  }

  /** The item sent on: its page and coordinates replaced by the normalised ones. */
  function Written<T>(b: Box, rest: T): Item<T> {
    var sides := Corners(Some(b.x0), Some(b.y0), Some(b.x1), Some(b.y1));
    Item(Number(b.page as real), Number(b.page as real), Some(sides), sides, rest)
  }

  function Area(b: Box): real {
    Max(0.0, b.x1 - b.x0) * Max(0.0, b.y1 - b.y0)
  }

  predicate TupleLeq(a: Box, b: Box) {
    || a.page < b.page
    || (a.page == b.page && (a.x0 < b.x0 || (a.x0 == b.x0 && (a.y0 < b.y0 || (a.y0 == b.y0 &&
       (a.x1 < b.x1 || (a.x1 == b.x1 && a.y1 <= b.y1)))))))
  }

  /** The sort key (area, normalised). */
  predicate BoxLeq(a: Box, b: Box) {
    Area(a) < Area(b) || (Area(a) == Area(b) && TupleLeq(a, b))
  }

  lemma BoxOrder()
    ensures TotalPreorder(BoxLeq) && Antisymmetric(BoxLeq)
  {
    forall a, b
      ensures BoxLeq(a, b) || BoxLeq(b, a)
      ensures BoxLeq(a, b) && BoxLeq(b, a) ==> a == b
    {
    }
    forall a, b, c | BoxLeq(a, b) && BoxLeq(b, c)
      ensures BoxLeq(a, c)
    {
    }
  }

  function ReadAll<T>(round: real -> real, items: seq<Item<T>>): (boxes: seq<Box>)
    ensures forall b :: b in boxes <==> exists i :: 0 <= i < |items| && Read(round, items[i]) == Some(b)
  {
    if items == [] then []
    else
      var n := |items| - 1;
      var before, b := ReadAll(round, items[..n]), Read(round, items[n]);
      assert forall i :: 0 <= i < n ==> items[..n][i] == items[i];
      if b.Some? then before + [b.value] else before
  }

  function FirstFew<T>(s: seq<T>): seq<T> {
    if |s| <= LIMIT then s else s[..LIMIT]
  }

  /** The geometry kept: of the distinct boxes the two least by area, then page and corners. */
  function Kept<T>(round: real -> real, items: seq<Item<T>>): seq<Box> {
    FirstFew(Sort(BoxLeq, Dedupe(ReadAll(round, items))))
  }

  lemma KeptAreRead<T>(round: real -> real, items: seq<Item<T>>)
    ensures forall b :: b in Kept(round, items) ==> b in ReadAll(round, items)
  {
    var distinct := Dedupe(ReadAll(round, items));
    BoxOrder();
    SortSorts(BoxLeq, distinct);
    forall b | b in Kept(round, items)
      ensures b in ReadAll(round, items)
    {
      assert b in Sort(BoxLeq, distinct) && b in multiset(Sort(BoxLeq, distinct)) && b in multiset(distinct);
    }
  }

  /** The other entries of the first item with this geometry. */
  ghost function RestOf<T>(round: real -> real, items: seq<Item<T>>, b: Box): T
    requires b in ReadAll(round, items)
  {
    var n := |items| - 1;
    if b in ReadAll(round, items[..n]) then RestOf(round, items[..n], b) else items[n].rest
  }

  lemma {:induction false} RestIsOfFirst<T>(round: real -> real, items: seq<Item<T>>, b: Box) returns (i: nat)
    requires b in ReadAll(round, items)
    ensures i < |items| && Read(round, items[i]) == Some(b) && RestOf(round, items, b) == items[i].rest
    ensures forall j :: 0 <= j < i ==> Read(round, items[j]) != Some(b)
  {
    var n := |items| - 1;
    i := n;
    if b in ReadAll(round, items[..n]) {
      i := RestIsOfFirst(round, items[..n], b);
    }
  }

  /** A box together with the other entries of its item. */
  datatype Entry<T> = Entry(box: Box, rest: T)

  predicate EntryLeq<T>(a: Entry<T>, b: Entry<T>) {
    BoxLeq(a.box, b.box)
  }

  ghost predicate AllRead<T>(round: real -> real, items: seq<Item<T>>, boxes: seq<Box>) {
    forall b :: b in boxes ==> b in ReadAll(round, items)
  }

  ghost function Entries<T>(round: real -> real, items: seq<Item<T>>, boxes: seq<Box>): (entries: seq<Entry<T>>)
    requires AllRead(round, items, boxes)
    ensures |entries| == |boxes|
    ensures forall i :: 0 <= i < |boxes| ==> entries[i] == Entry(boxes[i], RestOf(round, items, boxes[i]))
  {
    seq(|boxes|, i requires 0 <= i < |boxes| => Entry(boxes[i], RestOf(round, items, boxes[i])))
  }

  function WriteAll<T>(entries: seq<Entry<T>>): (items: seq<Item<T>>)
    ensures |items| == |entries|
    ensures forall i :: 0 <= i < |items| ==> items[i] == Written(entries[i].box, entries[i].rest)
  {
    seq(|entries|, i requires 0 <= i < |entries| => Written(entries[i].box, entries[i].rest))
  }

  /** The kept geometry, each box with the other entries of the first item that has it. */
  ghost function Canonical<T>(round: real -> real, items: seq<Item<T>>): seq<Item<T>> {
    KeptAreRead(round, items);
    WriteAll(Entries(round, items, Kept(round, items)))
  }

  lemma {:induction false} InsertEntry<T>(round: real -> real, items: seq<Item<T>>, b: Box, boxes: seq<Box>)
    requires AllRead(round, items, boxes) && b in ReadAll(round, items)
    ensures AllRead(round, items, Insert(BoxLeq, b, boxes))
    ensures Insert(EntryLeq, Entry(b, RestOf(round, items, b)), Entries(round, items, boxes)) ==
            Entries(round, items, Insert(BoxLeq, b, boxes))
  {
    if boxes != [] && !BoxLeq(boxes[|boxes| - 1], b) {
      var init := boxes[..|boxes| - 1];
      InsertEntry(round, items, b, init);
      assert Entries(round, items, boxes)[..|boxes| - 1] == Entries(round, items, init);
    }
  }

  /** Sorting entries by their boxes is sorting the boxes. */
  lemma {:induction false} SortEntries<T>(round: real -> real, items: seq<Item<T>>, boxes: seq<Box>)
    requires AllRead(round, items, boxes)
    ensures AllRead(round, items, Sort(BoxLeq, boxes))
    ensures Sort(EntryLeq, Entries(round, items, boxes)) == Entries(round, items, Sort(BoxLeq, boxes))
  {
    if boxes != [] {
      var init, last := boxes[..|boxes| - 1], boxes[|boxes| - 1];
      SortEntries(round, items, init);
      InsertEntry(round, items, last, Sort(BoxLeq, init));
      assert Entries(round, items, boxes)[..|boxes| - 1] == Entries(round, items, init);
    }
  }

  /** An item read later changes nothing about the entries kept so far. */
  lemma EntriesNext<T>(round: real -> real, items: seq<Item<T>>, item: Item<T>, boxes: seq<Box>)
    requires AllRead(round, items, boxes)
    ensures AllRead(round, items + [item], boxes)
    ensures Entries(round, items + [item], boxes) == Entries(round, items, boxes)
  {
    assert (items + [item])[..|items|] == items;
  }

  ghost function SoFar<T>(round: real -> real, items: seq<Item<T>>): seq<Entry<T>> {
    Entries(round, items, Dedupe(ReadAll(round, items)))
  }

  /** One more item adds an entry exactly if it can be read and its geometry is new. */
  lemma SoFarNext<T>(round: real -> real, items: seq<Item<T>>, item: Item<T>)
    ensures var b := Read(round, item);
            SoFar(round, items + [item]) ==
            SoFar(round, items) +
            (if b.Some? && b.value !in ReadAll(round, items) then [Entry(b.value, item.rest)] else [])
  {
    var b, before, after := Read(round, item), ReadAll(round, items), items + [item];
    assert after[..|items|] == items;
    EntriesNext(round, items, item, Dedupe(before));
    if b.Some? {
      assert (before + [b.value])[..|before|] == before;
      if b.value in before {
        assert SoFar(round, items) + [] == SoFar(round, items);
      }
    } else {
      assert SoFar(round, items) + [] == SoFar(round, items);
    }
  }

  lemma SortedSoFar<T>(round: real -> real, items: seq<Item<T>>)
    ensures WriteAll(FirstFew(Sort(EntryLeq, SoFar(round, items)))) == Canonical(round, items)
  {
    var boxes := Dedupe(ReadAll(round, items));
    SortEntries(round, items, boxes);
    KeptAreRead(round, items);
    assert FirstFew(Entries(round, items, Sort(BoxLeq, boxes))) == Entries(round, items, Kept(round, items));
  }

  method CanonicalWorkspaceBoxes<T>(round: real -> real, items: seq<Item<T>>) returns (canonical: seq<Item<T>>)
    ensures canonical == Canonical(round, items)
  {
    var entries: seq<Entry<T>> := [];
    var seen: set<Box> := {};
    for i := 0 to |items|
      invariant entries == SoFar(round, items[..i])
      invariant forall b :: b in seen <==> b in ReadAll(round, items[..i])
    {
      assert items[..i + 1] == items[..i] + [items[i]] && items[..i + 1][..i] == items[..i];
      SoFarNext(round, items[..i], items[i]);
      var b := Read(round, items[i]);
      if b.None? {
        continue;
      }
      if b.value in seen {
        continue;
      }
      seen := seen + {b.value};
      entries := entries + [Entry(b.value, items[i].rest)];
    }
    assert items[..|items|] == items;
    SortedSoFar(round, items);
    entries := Sort(EntryLeq, entries);
    canonical := WriteAll(FirstFew(entries));
  }

  // ---- Order does not matter ------------------------------------------------------------------

  /**
   * The same boxes in any order, with any repetitions, give the same geometry, and the same list exactly if the first
   * items with each kept box agree in their other entries.
   */
  lemma OrderDoesNotMatter<T>(round: real -> real, items: seq<Item<T>>, others: seq<Item<T>>)
    requires forall b :: b in ReadAll(round, items) <==> b in ReadAll(round, others)
    ensures Kept(round, items) == Kept(round, others)
    ensures forall b :: b in Kept(round, items) ==> b in ReadAll(round, items)
    ensures Canonical(round, items) == Canonical(round, others) <==>
            forall b :: b in Kept(round, items) ==> RestOf(round, items, b) == RestOf(round, others, b)
  {
    var s, t := Dedupe(ReadAll(round, items)), Dedupe(ReadAll(round, others));
    forall x
      ensures multiset(s)[x] == multiset(t)[x]
    {
      DistinctBag(s, x);
      DistinctBag(t, x);
    }
    assert multiset(s) == multiset(t);
    BoxOrder();
    SortSorts(BoxLeq, s);
    SortSorts(BoxLeq, t);
    SortedIsUnique(BoxLeq, Sort(BoxLeq, s), Sort(BoxLeq, t));
    KeptAreRead(round, items);
    SameLists(round, items, others);
  }

  lemma SameLists<T>(round: real -> real, items: seq<Item<T>>, others: seq<Item<T>>)
    requires Kept(round, items) == Kept(round, others)
    requires AllRead(round, items, Kept(round, items)) && AllRead(round, others, Kept(round, items))
    ensures Canonical(round, items) == Canonical(round, others) <==>
            forall b :: b in Kept(round, items) ==> RestOf(round, items, b) == RestOf(round, others, b)
  {
    var kept, left, right := Kept(round, items), Canonical(round, items), Canonical(round, others);
    forall b | b in kept && left == right
      ensures RestOf(round, items, b) == RestOf(round, others, b)
    {
      var i :| 0 <= i < |kept| && kept[i] == b;
      assert left[i].rest == right[i].rest;
    }
  }

  /** At most two boxes are kept, all read from the items, and every box read but dropped is no smaller. */
  lemma KeptAreTheSmallest<T>(round: real -> real, items: seq<Item<T>>, dropped: Box, i: nat)
    requires dropped in ReadAll(round, items) && dropped !in Kept(round, items) && i < |Kept(round, items)|
    ensures Kept(round, items)[i] in ReadAll(round, items) && |Kept(round, items)| == LIMIT
    ensures Area(Kept(round, items)[i]) <= Area(dropped)
  {
    var distinct := Dedupe(ReadAll(round, items));
    BoxOrder();
    SortSorts(BoxLeq, distinct);
    var sorted := Sort(BoxLeq, distinct);
    assert dropped in multiset(distinct) && dropped in multiset(sorted);
    var k :| 0 <= k < |sorted| && sorted[k] == dropped;
    assert k >= |Kept(round, items)|;
    assert BoxLeq(sorted[i], sorted[k]);
    assert sorted[i] in multiset(sorted) && sorted[i] in multiset(distinct);
  }

  // ---- Canonicalising twice -------------------------------------------------------------------

  /** A box as Read produces it. */
  ghost predicate Normal(round: real -> real, b: Box) {
    && round(b.x0) == b.x0 && round(b.y0) == b.y0 && round(b.x1) == b.x1 && round(b.y1) == b.y1
    && b.x0 <= b.x1 && b.y0 <= b.y1
  }

  lemma ReadIsNormal<T>(round: real -> real, item: Item<T>)
    requires RoundLaw(round) && Read(round, item).Some?
    ensures Normal(round, Read(round, item).value)
  {
  }

  /** Reading a written box gives it back, but page 0 reads as page 1. */
  lemma ReadWritten<T>(round: real -> real, b: Box, rest: T)
    requires Normal(round, b)
    ensures Read(round, Written(b, rest)) == Some(if b.page == 0 then b.(page := 1) else b)
  {
  }

  lemma KeptFrom<T>(round: real -> real, items: seq<Item<T>>)
    requires RoundLaw(round)
    ensures var kept := Kept(round, items);
            && Sorted(BoxLeq, kept) && |kept| <= LIMIT
            && Distinct(kept)
            && (forall i :: 0 <= i < |kept| ==> Normal(round, kept[i]))
  {
    var distinct := Dedupe(ReadAll(round, items));
    BoxOrder();
    SortSorts(BoxLeq, distinct);
    var sorted := Sort(BoxLeq, distinct);
    SortKeepsDistinct(BoxLeq, distinct);
    forall i | 0 <= i < |sorted|
      ensures Normal(round, sorted[i])
    {
      assert sorted[i] in sorted && sorted[i] in distinct;
      var k :| 0 <= k < |items| && Read(round, items[k]) == Some(sorted[i]);
      ReadIsNormal(round, items[k]);
    }
  }

  lemma ReadAllNext<T>(round: real -> real, items: seq<Item<T>>, item: Item<T>)
    requires Read(round, item).Some?
    ensures ReadAll(round, items + [item]) == ReadAll(round, items) + [Read(round, item).value]
  {
    assert (items + [item])[..|items|] == items;
  }

  ghost predicate AllNormal<T>(round: real -> real, entries: seq<Entry<T>>) {
    forall i :: 0 <= i < |entries| ==> Normal(round, entries[i].box)
  }

  function BoxesOf<T>(entries: seq<Entry<T>>): (boxes: seq<Box>)
    ensures |boxes| == |entries| && forall i :: 0 <= i < |boxes| ==> boxes[i] == entries[i].box
  {
    seq(|entries|, i requires 0 <= i < |entries| => entries[i].box)
  }

  lemma WriteAllFront<T>(entries: seq<Entry<T>>)
    requires entries != []
    ensures var (init, last) := (entries[..|entries| - 1], entries[|entries| - 1]);
            && WriteAll(entries) == WriteAll(init) + [Written(last.box, last.rest)]
            && BoxesOf(entries) == BoxesOf(init) + [last.box]
  {
  }

  lemma {:induction false} ReadAllWritten<T>(round: real -> real, entries: seq<Entry<T>>)
    requires AllNormal(round, entries) && forall i :: 0 <= i < |entries| ==> entries[i].box.page != 0
    ensures ReadAll(round, WriteAll(entries)) == BoxesOf(entries)
  {
    if entries != [] {
      var n := |entries| - 1;
      var init, last := entries[..n], entries[n];
      ReadAllWritten(round, init);
      ReadWritten(round, last.box, last.rest);
      ReadAllNext(round, WriteAll(init), Written(last.box, last.rest));
      WriteAllFront(entries);
    }
  }

  lemma {:induction false} DedupeDistinct(s: seq<Box>)
    requires Distinct(s)
    ensures Dedupe(s) == s
  {
    if s != [] {
      DedupeDistinct(s[..|s| - 1]);
      assert s == s[..|s| - 1] + [s[|s| - 1]];
      assert s[|s| - 1] !in s[..|s| - 1];
    }
  }

  /** The second pass finds with each box the entries written with it. */
  lemma RestOfWritten<T>(round: real -> real, entries: seq<Entry<T>>, i: nat)
    requires AllNormal(round, entries) && Distinct(BoxesOf(entries)) && i < |entries|
    requires forall i :: 0 <= i < |entries| ==> entries[i].box.page != 0
    ensures entries[i].box in ReadAll(round, WriteAll(entries))
    ensures RestOf(round, WriteAll(entries), entries[i].box) == entries[i].rest
  {
    var b, items := entries[i].box, WriteAll(entries);
    ReadAllWritten(round, entries);
    assert BoxesOf(entries)[i] in BoxesOf(entries);
    var k := RestIsOfFirst(round, items, b);
    OnlyOneReads(round, entries, i, k);
  }

  lemma OnlyOneReads<T>(round: real -> real, entries: seq<Entry<T>>, i: nat, k: nat)
    requires AllNormal(round, entries) && Distinct(BoxesOf(entries)) && i < |entries| && k < |entries|
    requires entries[k].box.page != 0 && Read(round, WriteAll(entries)[k]) == Some(entries[i].box)
    ensures i == k
  {
    ReadWritten(round, entries[k].box, entries[k].rest);
    assert BoxesOf(entries)[k] == BoxesOf(entries)[i];
  }

  lemma TwiceIsOnce<T>(round: real -> real, entries: seq<Entry<T>>)
    requires AllNormal(round, entries) && |entries| <= LIMIT
    requires Sorted(BoxLeq, BoxesOf(entries)) && Distinct(BoxesOf(entries))
    requires forall i :: 0 <= i < |entries| ==> entries[i].box.page != 0
    ensures Canonical(round, WriteAll(entries)) == WriteAll(entries)
  {
    var items, boxes := WriteAll(entries), BoxesOf(entries);
    ReadAllWritten(round, entries);
    DedupeDistinct(boxes);
    SortOfSorted(BoxLeq, boxes);
    assert Kept(round, items) == boxes;
    forall i | 0 <= i < |entries|
      ensures Entries(round, items, boxes)[i] == entries[i]
    {
      RestOfWritten(round, entries, i);
    }
    assert Entries(round, items, boxes) == entries;
  }

  lemma PageZeroChanges<T>(round: real -> real, entries: seq<Entry<T>>, i: nat)
    requires AllNormal(round, entries) && i < |entries| && entries[i].box.page == 0
    ensures Canonical(round, WriteAll(entries)) != WriteAll(entries)
  {
    var once := WriteAll(entries);
    var again, twice := Kept(round, once), Canonical(round, once);
    NoPageZeroTwice(round, entries);
    if |again| > i {
      assert again[i] in again;
      WrittenPages(again[i], entries[i].box);
      assert twice[i].page == Number(again[i].page as real) && once[i].page == Number(entries[i].box.page as real);
    }
    assert |twice| == |again|;
  }

  lemma KeptEntries<T>(round: real -> real, items: seq<Item<T>>) returns (entries: seq<Entry<T>>)
    requires RoundLaw(round)
    ensures BoxesOf(entries) == Kept(round, items) && WriteAll(entries) == Canonical(round, items)
    ensures AllNormal(round, entries) && |entries| <= LIMIT
    ensures Sorted(BoxLeq, BoxesOf(entries)) && Distinct(BoxesOf(entries))
  {
    KeptFrom(round, items);
    KeptAreRead(round, items);
    entries := Entries(round, items, Kept(round, items));
    assert BoxesOf(entries) == Kept(round, items);
  }

  /**
   * Canonicalising twice gives the same list as once exactly when no box was kept on page 0: the page entry 0 is
   * false, and the second pass replaces it by 1.
   */
  lemma IdempotentIff<T>(round: real -> real, items: seq<Item<T>>)
    requires RoundLaw(round)
    ensures Canonical(round, Canonical(round, items)) == Canonical(round, items) <==>
            forall b :: b in Kept(round, items) ==> b.page != 0
  {
    var kept := Kept(round, items);
    var entries := KeptEntries(round, items);
    if forall b :: b in kept ==> b.page != 0 {
      TwiceIsOnce(round, entries);
    } else {
      var i :| 0 <= i < |kept| && kept[i].page == 0;
      PageZeroChanges(round, entries, i);
    }
  }

  lemma WrittenPages(a: Box, b: Box)
    requires a.page != b.page
    ensures Number(a.page as real) != Number(b.page as real)
  {
    assert (a.page as real).Floor == a.page && (b.page as real).Floor == b.page;
  }

  /** Boxes read from written ones are never on page 0. */
  lemma NoPageZeroTwice<T>(round: real -> real, entries: seq<Entry<T>>)
    requires AllNormal(round, entries)
    ensures forall b :: b in Kept(round, WriteAll(entries)) ==> b.page != 0
  {
    var items := WriteAll(entries);
    KeptAreRead(round, items);
    forall b | b in Kept(round, items)
      ensures b.page != 0
    {
      var k :| 0 <= k < |items| && Read(round, items[k]) == Some(b);
      ReadWritten(round, entries[k].box, entries[k].rest);
    }
  }

  /** Such a box: its page is given as the text "0" or as a fraction below 1. */
  lemma PageZeroArises<T>(round: real -> real, page: PageValue, sides: Corners, rest: T)
    requires page == Digits(0) || (page.Number? && page.value != 0.0 && -1.0 < page.value < 1.0)
    requires sides.x0.Some? && sides.y0.Some? && sides.x1.Some? && sides.y1.Some?
    ensures Read(round, Item(page, Absent, None, sides, rest)).Some?
    ensures Read(round, Item(page, Absent, None, sides, rest)).value.page == 0
  {
  }
}
