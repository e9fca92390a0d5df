/** Grouping text tokens into lines and lines into tables (extraction/layout_analyzer.py). */
module LayoutAnalyzer {
  import opened Prelude
  import opened Ordering

  datatype Token = Token(text: string, x0: real, y0: real, x1: real, y1: real, page: int, source: string)

  /** A token with its position in the spatial text map. */
  datatype Indexed = Indexed(index: nat, token: Token)

  datatype Line = Line(
    page: int, text: string, x0: real, y0: real, x1: real, y1: real, indices: seq<nat>, source: string)

  /** Library functions: rounding to one and two decimals, and joining texts with spaces and stripping. */
  datatype Library = Library(round1: real -> real, round2: real -> real, join: seq<string> -> string)

  const TOLERANCE := 4.5

  ghost predicate RoundsWithin(round: real -> real, half: real) {
    Monotone(round) && forall x :: x - half <= round(x) <= x + half
  }

  /** The sort key (round(top, 1), left). */
  predicate TokenLeq(lib: Library, a: Indexed, b: Indexed) {
    var (ra, rb) := (lib.round1(a.token.y0), lib.round1(b.token.y0));
    ra < rb || (ra == rb && a.token.x0 <= b.token.x0)
  }

  function Leq(lib: Library): (Indexed, Indexed) -> bool {
    (a, b) => TokenLeq(lib, a, b)
  }

  lemma LeqIsOrder(lib: Library)
    ensures TotalPreorder(Leq(lib))
  {
  }

  function Pages(tokens: seq<Token>): (pages: seq<int>)
    ensures |pages| == |tokens| && forall i :: 0 <= i < |tokens| ==> pages[i] == tokens[i].page
  {
    seq(|tokens|, i requires 0 <= i < |tokens| => tokens[i].page)
  }

  /** The tokens of one page, in document order. */
  function OnPage(tokens: seq<Token>, page: int): seq<Indexed> {
    if tokens == [] then []
    else
      var n := |tokens| - 1;
      OnPage(tokens[..n], page) + (if tokens[n].page == page then [Indexed(n, tokens[n])] else [])
  }

  function MinTop(group: seq<Indexed>): (m: real)
    requires group != []
    ensures forall i :: 0 <= i < |group| ==> m <= group[i].token.y0
    ensures exists i :: 0 <= i < |group| && group[i].token.y0 == m
  {
    var last := group[|group| - 1].token.y0;
    if |group| == 1 then last
    else
      var front := MinTop(group[..|group| - 1]);
      if last < front then last else front
  }

  predicate Near(top: real, y: real) {
    -TOLERANCE <= y - top <= TOLERANCE
  }

  /** A token joins the last line when near that line's least top, and opens a line otherwise. */
  function Extend(lines: seq<seq<Indexed>>, t: Indexed): (longer: seq<seq<Indexed>>)
    requires forall i :: 0 <= i < |lines| ==> lines[i] != []
    ensures forall i :: 0 <= i < |longer| ==> longer[i] != []
  {
    if lines == [] then [[t]]
    else
      var done, current := lines[..|lines| - 1], lines[|lines| - 1];
      if Near(MinTop(current), t.token.y0) then done + [current + [t]] else lines + [[t]]
  }

  /** The sorted tokens of a page cut into lines. */
  function Cut(items: seq<Indexed>): (groups: seq<seq<Indexed>>)
    ensures forall i :: 0 <= i < |groups| ==> groups[i] != []
  {
    if items == [] then [] else Extend(Cut(items[..|items| - 1]), items[|items| - 1])
  }

  function Least(s: seq<real>): (m: real)
    requires s != []
    ensures m in s && forall x :: x in s ==> m <= x
  {
    var last := s[|s| - 1];
    if |s| == 1 then last
    else
      var front := Least(s[..|s| - 1]);
      assert s == s[..|s| - 1] + [last];
      if last < front then last else front
  }

  function Greatest(s: seq<real>): (m: real)
    requires s != []
    ensures m in s && forall x :: x in s ==> x <= m
  {
    var last := s[|s| - 1];
    if |s| == 1 then last
    else
      var front := Greatest(s[..|s| - 1]);
      assert s == s[..|s| - 1] + [last];
      if front < last then last else front
  }

  function Map<A, B>(f: A -> B, s: seq<A>): (r: seq<B>)
    ensures |r| == |s| && forall i :: 0 <= i < |s| ==> r[i] == f(s[i])
  {
    seq(|s|, i requires 0 <= i < |s| => f(s[i]))
  }

  function TokensToLine(lib: Library, page: int, group: seq<Indexed>): Line
    requires group != []
  {
    Line(page, lib.join(Map((t: Indexed) => t.token.text, group)),
         lib.round2(Least(Map((t: Indexed) => t.token.x0, group))),
         lib.round2(Least(Map((t: Indexed) => t.token.y0, group))),
         lib.round2(Greatest(Map((t: Indexed) => t.token.x1, group))),
         lib.round2(Greatest(Map((t: Indexed) => t.token.y1, group))),
         Map((t: Indexed) => t.index, group),
         group[0].token.source)
  }

  function LinesOf(lib: Library, page: int, groups: seq<seq<Indexed>>): (lines: seq<Line>)
    requires forall i :: 0 <= i < |groups| ==> groups[i] != []
    ensures |lines| == |groups| && forall i :: 0 <= i < |lines| ==> lines[i] == TokensToLine(lib, page, groups[i])
  {
    seq(|groups|, i requires 0 <= i < |groups| => TokensToLine(lib, page, groups[i]))
  }

  function PageGroups(lib: Library, tokens: seq<Token>, page: int): seq<seq<Indexed>> {
    Cut(Sort(Leq(lib), OnPage(tokens, page)))
  }

  function PageLines(lib: Library, tokens: seq<Token>, page: int): seq<Line> {
    LinesOf(lib, page, PageGroups(lib, tokens, page))
  }

  /** The lines of each page. */
  function LinesBy(lib: Library, tokens: seq<Token>): int -> seq<Line> {
    page => PageLines(lib, tokens, page)
  }

  function Concat<T>(blocks: int -> seq<T>, pages: seq<int>): seq<T> {
    if pages == [] then [] else Concat(blocks, pages[..|pages| - 1]) + blocks(pages[|pages| - 1])
  }

  /** The lines of the given pages, page after page. */
  function LinesOfPages(lib: Library, tokens: seq<Token>, pages: seq<int>): seq<Line> {
    Concat(LinesBy(lib, tokens), pages)
  }

  /** Pages come in the order in which they first occur. */
  function EvidenceLines(lib: Library, tokens: seq<Token>): seq<Line> {
    LinesOfPages(lib, tokens, Dedupe(Pages(tokens)))
  }

  // ---- The loops ------------------------------------------------------------------------------

  /** The finished lines of a page followed by the one being built. */
  ghost function Built(done: seq<seq<Indexed>>, current: seq<Indexed>): seq<seq<Indexed>> {
    if current == [] then done else done + [current]
  }

  lemma CutNext(items: seq<Indexed>, i: nat, done: seq<seq<Indexed>>, current: seq<Indexed>)
    requires i < |items| && Cut(items[..i]) == Built(done, current)
    requires current == [] ==> done == []
    ensures Cut(items[..i + 1]) ==
            if current == [] || Near(MinTop(current), items[i].token.y0) then Built(done, current + [items[i]])
            else Built(done + [current], [items[i]])
  {
    var upto := items[..i + 1];
    assert upto[..|upto| - 1] == items[..i] && upto[|upto| - 1] == items[i];
    if current != [] {
      var before := Cut(items[..i]);
      assert before[..|before| - 1] == done && before[|before| - 1] == current;
    } else {
      assert current + [items[i]] == [items[i]] && done + [[items[i]]] == [[items[i]]];
    }
  }

  lemma LinesOfNext(lib: Library, page: int, done: seq<seq<Indexed>>, group: seq<Indexed>)
    requires group != [] && forall k :: 0 <= k < |done| ==> done[k] != []
    ensures forall k :: 0 <= k < |done + [group]| ==> (done + [group])[k] != []
    ensures LinesOf(lib, page, done + [group]) == LinesOf(lib, page, done) + [TokensToLine(lib, page, group)]
  {
  }

  lemma MinTopNext(group: seq<Indexed>, t: Indexed)
    ensures MinTop(group + [t]) ==
            if group == [] || t.token.y0 < MinTop(group) then t.token.y0 else MinTop(group)
  {
    assert (group + [t])[..|group|] == group;
  }

  /** The inner loop of build_evidence_lines over the sorted tokens of one page. */
  method CutPage(lib: Library, page: int, items: seq<Indexed>) returns (lines: seq<Line>)
    ensures lines == LinesOf(lib, page, Cut(items))
  {
    lines := [];
    ghost var done: seq<seq<Indexed>> := [];
    var current: seq<Indexed> := [];
    var currentY := 0.0;
    for i := 0 to |items|
      invariant current == [] ==> done == []
      invariant current != [] ==> currentY == MinTop(current)
      invariant Cut(items[..i]) == Built(done, current)
      invariant forall k :: 0 <= k < |done| ==> done[k] != []
      invariant lines == LinesOf(lib, page, done)
    {
      var t := items[i];
      CutNext(items, i, done, current);
      MinTopNext(current, t);
      MinTopNext([], t);
      if current == [] || Near(currentY, t.token.y0) {
        currentY := if current == [] || t.token.y0 < currentY then t.token.y0 else currentY;
        current := current + [t];
      } else {
        LinesOfNext(lib, page, done, current);
        lines := lines + [TokensToLine(lib, page, current)];
        done := done + [current];
        current := [t];
        currentY := t.token.y0;
      }
    }
    assert items[..|items|] == items;
    if current != [] {
      LinesOfNext(lib, page, done, current);
      lines := lines + [TokensToLine(lib, page, current)];
    }
  }

  /** The pages met so far, in order, and the tokens of each. */
  ghost predicate Grouped(tokens: seq<Token>, order: seq<int>, byPage: map<int, seq<Indexed>>) {
    && order == Dedupe(Pages(tokens))
    && (forall p :: p in order <==> p in byPage)
    && (forall p :: OnPage(tokens, p) == Held(byPage, p))
  }

  function Held(byPage: map<int, seq<Indexed>>, page: int): seq<Indexed> {
    if page in byPage then byPage[page] else []
  }

  /** A token filed under its page. */
  function AddToPage(byPage: map<int, seq<Indexed>>, t: Indexed): map<int, seq<Indexed>> {
    byPage[t.token.page := Held(byPage, t.token.page) + [t]]
  }

  lemma OnPageNext(tokens: seq<Token>, i: nat, page: int)
    requires i < |tokens|
    ensures OnPage(tokens[..i + 1], page) ==
            if tokens[i].page == page then OnPage(tokens[..i], page) + [Indexed(i, tokens[i])]
            else OnPage(tokens[..i], page)
  {
    var longer := tokens[..i + 1];
    assert longer[..|longer| - 1] == tokens[..i] && longer[|longer| - 1] == tokens[i];
    assert OnPage(tokens[..i], page) + [] == OnPage(tokens[..i], page);
  }

  lemma PagesNext(tokens: seq<Token>, i: nat)
    requires i < |tokens|
    ensures Dedupe(Pages(tokens[..i + 1])) ==
            if tokens[i].page in Dedupe(Pages(tokens[..i])) then Dedupe(Pages(tokens[..i]))
            else Dedupe(Pages(tokens[..i])) + [tokens[i].page]
  {
    var pages := Pages(tokens[..i + 1]);
    assert pages[..|pages| - 1] == Pages(tokens[..i]) && pages[|pages| - 1] == tokens[i].page;
  }

  lemma DomainNext(order: seq<int>, byPage: map<int, seq<Indexed>>, t: Indexed)
    requires forall p :: p in order <==> p in byPage
    ensures var page := t.token.page;
            forall p :: p in (if page in byPage then order else order + [page]) <==> p in AddToPage(byPage, t)
  {
  }

  lemma ContentsNext(tokens: seq<Token>, i: nat, byPage: map<int, seq<Indexed>>)
    requires i < |tokens| && forall p :: OnPage(tokens[..i], p) == Held(byPage, p)
    ensures forall p :: OnPage(tokens[..i + 1], p) == Held(AddToPage(byPage, Indexed(i, tokens[i])), p)
  {
    forall p
      ensures OnPage(tokens[..i + 1], p) == Held(AddToPage(byPage, Indexed(i, tokens[i])), p)
    {
      OnPageNext(tokens, i, p);
    }
  }

  /** The first loop of build_evidence_lines: tokens by page, pages in order of first occurrence. */
  method GroupByPage(tokens: seq<Token>) returns (order: seq<int>, byPage: map<int, seq<Indexed>>)
    ensures order == Dedupe(Pages(tokens))
    ensures forall p :: p in order <==> p in byPage
    ensures forall p :: p in byPage ==> byPage[p] == OnPage(tokens, p)
  {
    order, byPage := [], map[];
    for i := 0 to |tokens|
      invariant Grouped(tokens[..i], order, byPage)
    {
      PagesNext(tokens, i);
      DomainNext(order, byPage, Indexed(i, tokens[i]));
      ContentsNext(tokens, i, byPage);
      if tokens[i].page !in byPage {
        order := order + [tokens[i].page];
      }
      byPage := AddToPage(byPage, Indexed(i, tokens[i]));
    }
    assert tokens[..|tokens|] == tokens;
  }

  method BuildEvidenceLines(lib: Library, tokens: seq<Token>) returns (lines: seq<Line>)
    ensures lines == EvidenceLines(lib, tokens)
  {
    var order, byPage := GroupByPage(tokens);
    lines := [];
    var k := 0;
    while k < |order|
      invariant 0 <= k <= |order|
      invariant lines == LinesOfPages(lib, tokens, order[..k])
    {
      assert order[..k + 1][..k] == order[..k];
      assert order[k] in order;
      var pageLines := CutPage(lib, order[k], Sort(Leq(lib), byPage[order[k]]));
      lines := lines + pageLines;
      k := k + 1;
    }
    assert order[..k] == order;
  }

  // ---- Every token is in exactly one line -----------------------------------------------------

  function Flatten<T>(groups: seq<seq<T>>): seq<T> {
    if groups == [] then [] else Flatten(groups[..|groups| - 1]) + groups[|groups| - 1]
  }

  lemma FlattenNext<T>(groups: seq<seq<T>>, group: seq<T>)
    ensures Flatten(groups + [group]) == Flatten(groups) + group
  {
    assert (groups + [group])[..|groups|] == groups;
  }

  lemma {:induction false} FlattenAppend<T>(a: seq<seq<T>>, b: seq<seq<T>>)
    ensures Flatten(a + b) == Flatten(a) + Flatten(b)
    decreases |b|
  {
    if b == [] {
      assert a + b == a;
    } else {
      var init := b[..|b| - 1];
      assert a + b == (a + init) + [b[|b| - 1]];
      FlattenNext(a + init, b[|b| - 1]);
      FlattenAppend(a, init);
    }
  }

  /** Cutting a page into lines neither loses, repeats nor reorders its tokens. */
  lemma {:induction false} CutKeepsItems(items: seq<Indexed>)
    ensures Flatten(Cut(items)) == items
  {
    if items != [] {
      var init, t := items[..|items| - 1], items[|items| - 1];
      CutKeepsItems(init);
      assert items == init + [t];
      var before := Cut(init);
      if before != [] {
        var done, line := before[..|before| - 1], before[|before| - 1];
        assert before == done + [line];
        FlattenNext(done, line);
        FlattenNext(done, line + [t]);
        FlattenNext(before, [t]);
        assert Flatten(done) + (line + [t]) == (Flatten(done) + line) + [t];
      } else {
        FlattenNext([], [t]);
        assert [] + [[t]] == [[t]];
      }
    }
  }

  function AllIndices(lines: seq<Line>): seq<nat> {
    if lines == [] then [] else AllIndices(lines[..|lines| - 1]) + lines[|lines| - 1].indices
  }

  lemma AllIndicesNext(a: seq<Line>, line: Line)
    ensures AllIndices(a + [line]) == AllIndices(a) + line.indices
  {
    assert (a + [line])[..|a|] == a;
  }

  lemma {:induction false} AllIndicesAppend(a: seq<Line>, b: seq<Line>)
    ensures AllIndices(a + b) == AllIndices(a) + AllIndices(b)
    decreases |b|
  {
    if b == [] {
      assert a + b == a;
    } else {
      var init, last := b[..|b| - 1], b[|b| - 1];
      AllIndicesAppend(a, init);
      AllIndicesNext(a + init, last);
      assert a + b == (a + init) + [last];
    }
  }

  function IsIndex(i: nat): nat -> bool {
    x => x == i
  }

  function HasIndex(i: nat): Indexed -> bool {
    (t: Indexed) => t.index == i
  }

  lemma {:induction false} IndicesOfGroup(i: nat, group: seq<Indexed>)
    ensures CountIf(IsIndex(i), Map((t: Indexed) => t.index, group)) == CountIf(HasIndex(i), group)
  {
    if group != [] {
      var init := group[..|group| - 1];
      var f := (t: Indexed) => t.index;
      assert Map(f, group)[..|group| - 1] == Map(f, init);
      IndicesOfGroup(i, init);
    }
  }

  lemma {:induction false} IndicesOfLines(lib: Library, page: int, groups: seq<seq<Indexed>>, i: nat)
    requires forall k :: 0 <= k < |groups| ==> groups[k] != []
    ensures CountIf(IsIndex(i), AllIndices(LinesOf(lib, page, groups))) == CountIf(HasIndex(i), Flatten(groups))
  {
    if groups != [] {
      var init, group := groups[..|groups| - 1], groups[|groups| - 1];
      var lines := LinesOf(lib, page, groups);
      assert lines[..|lines| - 1] == LinesOf(lib, page, init);
      IndicesOfLines(lib, page, init, i);
      IndicesOfGroup(i, group);
      CountIfAppend(IsIndex(i), AllIndices(LinesOf(lib, page, init)), lines[|lines| - 1].indices);
      CountIfAppend(HasIndex(i), Flatten(init), group);
    }
  }

  /** The tokens listed for a page are exactly those on it, each once. */
  lemma {:induction false} OnPageOnce(tokens: seq<Token>, page: int, i: nat)
    ensures CountIf(HasIndex(i), OnPage(tokens, page)) == if i < |tokens| && tokens[i].page == page then 1 else 0
  {
    if tokens != [] {
      var n := |tokens| - 1;
      OnPageOnce(tokens[..n], page, i);
      if tokens[n].page == page {
        CountIfAppend(HasIndex(i), OnPage(tokens[..n], page), [Indexed(n, tokens[n])]);
        assert [Indexed(n, tokens[n])][..0] == [];
      } else {
        assert OnPage(tokens, page) == OnPage(tokens[..n], page);
      }
    }
  }

  lemma PageOnce(lib: Library, tokens: seq<Token>, page: int, i: nat)
    ensures CountIf(IsIndex(i), AllIndices(PageLines(lib, tokens, page))) ==
            if i < |tokens| && tokens[i].page == page then 1 else 0
  {
    var listed := OnPage(tokens, page);
    var items := Sort(Leq(lib), listed);
    IndicesOfLines(lib, page, Cut(items), i);
    CutKeepsItems(items);
    LeqIsOrder(lib);
    SortSorts(Leq(lib), listed);
    CountIfPermuted(HasIndex(i), items, listed);
    OnPageOnce(tokens, page, i);
  }

  function IsPageOf(tokens: seq<Token>, i: nat): int -> bool {
    p => i < |tokens| && tokens[i].page == p
  }

  lemma {:induction false} PagesOnce(lib: Library, tokens: seq<Token>, pages: seq<int>, i: nat)
    ensures CountIf(IsIndex(i), AllIndices(LinesOfPages(lib, tokens, pages))) == CountIf(IsPageOf(tokens, i), pages)
    decreases |pages|
  {
    if pages != [] {
      var init, page := pages[..|pages| - 1], pages[|pages| - 1];
      var before, lines := LinesOfPages(lib, tokens, init), PageLines(lib, tokens, page);
      PagesOnce(lib, tokens, init, i);
      PageOnce(lib, tokens, page, i);
      AllIndicesAppend(before, lines);
      CountIfAppend(IsIndex(i), AllIndices(before), AllIndices(lines));
    }
  }

  lemma {:induction false} CountDistinct<T>(p: T -> bool, x: T, s: seq<T>)
    requires forall i, j :: 0 <= i < j < |s| ==> s[i] != s[j]
    requires forall i :: 0 <= i < |s| ==> (p(s[i]) <==> s[i] == x)
    ensures CountIf(p, s) == if exists i :: 0 <= i < |s| && s[i] == x then 1 else 0
  {
    if s != [] {
      var init := s[..|s| - 1];
      assert forall i :: 0 <= i < |init| ==> init[i] == s[i];
      CountDistinct(p, x, init);
    }
  }

  /** Every position of the text map is listed by exactly one line, exactly once, and nothing else is. */
  lemma EachTokenInOneLine(lib: Library, tokens: seq<Token>, i: nat)
    ensures CountIf(IsIndex(i), AllIndices(EvidenceLines(lib, tokens))) == if i < |tokens| then 1 else 0
  {
    var pages := Dedupe(Pages(tokens));
    PagesOnce(lib, tokens, pages, i);
    if i < |tokens| {
      assert Pages(tokens)[i] in pages;
      CountDistinct(IsPageOf(tokens, i), tokens[i].page, pages);
    } else {
      CountIfBounded(IsPageOf(tokens, i), pages);
    }
  }

  // ---- What a line looks like -----------------------------------------------------------------

  /** Items of one page, each recording the token at its position. */
  ghost predicate FromPage(tokens: seq<Token>, page: int, items: seq<Indexed>) {
    forall k :: 0 <= k < |items| ==>
                  items[k].index < |tokens| && items[k].token == tokens[items[k].index] && items[k].token.page == page
  }

  lemma {:induction false} OnPageFromPage(tokens: seq<Token>, page: int)
    ensures FromPage(tokens, page, OnPage(tokens, page))
  {
    if tokens != [] {
      OnPageFromPage(tokens[..|tokens| - 1], page);
    }
  }

  /** The tops of a line, first to last, never fall by more than the slack of the sort key. */
  ghost predicate NearlyRising(items: seq<Indexed>) {
    forall j, k :: 0 <= j < k < |items| ==> items[k].token.y0 >= items[j].token.y0 - 0.1
  }

  lemma SortedNearlyRises(lib: Library, items: seq<Indexed>)
    requires RoundsWithin(lib.round1, 0.05) && Sorted(Leq(lib), items)
    ensures NearlyRising(items)
  {
    forall j, k | 0 <= j < k < |items|
      ensures items[k].token.y0 >= items[j].token.y0 - 0.1
    {
      assert Leq(lib)(items[j], items[k]);
    }
  }

  /** No two tops in the group lie further apart than the tolerance. */
  ghost predicate Flat(group: seq<Indexed>) {
    forall j, k :: 0 <= j < |group| && 0 <= k < |group| ==> group[j].token.y0 - group[k].token.y0 <= TOLERANCE
  }

  /** Each line starts lower on the page than the one before it by more than the tolerance. */
  ghost predicate Separated(groups: seq<seq<Indexed>>) {
    forall k :: 0 < k < |groups| && groups[k - 1] != [] && groups[k] != [] ==>
                  groups[k][0].token.y0 > MinTop(groups[k - 1]) + TOLERANCE
  }

  lemma FlatNext(group: seq<Indexed>, t: Indexed)
    requires group != [] && Flat(group) && Near(MinTop(group), t.token.y0)
    requires forall k :: 0 <= k < |group| ==> t.token.y0 >= group[k].token.y0 - 0.1
    ensures Flat(group + [t])
  {
    var m :| 0 <= m < |group| && group[m].token.y0 == MinTop(group);
    var longer := group + [t];
    forall j, k | 0 <= j < |longer| && 0 <= k < |longer|
      ensures longer[j].token.y0 - longer[k].token.y0 <= TOLERANCE
    {
      if j < |group| && k < |group| {
        assert longer[j] == group[j] && longer[k] == group[k];
      }
    }
  }

  lemma ExtendIsSeparated(lines: seq<seq<Indexed>>, t: Indexed)
    requires forall i :: 0 <= i < |lines| ==> lines[i] != []
    requires Separated(lines)
    requires lines != [] ==> t.token.y0 >= MinTop(Last(lines)) - 0.1
    ensures Separated(Extend(lines, t))
  {
    var longer: seq<seq<Indexed>> := Extend(lines, t);
    forall k | 0 < k < |longer| && longer[k - 1] != [] && longer[k] != []
      ensures longer[k][0].token.y0 > MinTop(longer[k - 1]) + TOLERANCE
    {
      assert longer[k - 1] == lines[k - 1];
      if k < |lines| {
        assert longer[k][0] == lines[k][0];
      }
    }
  }

  lemma ExtendIsFlat(lines: seq<seq<Indexed>>, t: Indexed)
    requires forall i :: 0 <= i < |lines| ==> lines[i] != [] && Flat(lines[i])
    requires lines != [] ==> forall k :: 0 <= k < |Last(lines)| ==> t.token.y0 >= Last(lines)[k].token.y0 - 0.1
    ensures forall i :: 0 <= i < |Extend(lines, t)| ==> Flat(Extend(lines, t)[i])
  {
    if lines != [] {
      var current: seq<Indexed> := Last(lines);
      if Near(MinTop(current), t.token.y0) {
        FlatNext(current, t);
      }
    }
  }

  lemma {:induction false} CutOnlyHolds(items: seq<Indexed>, i: nat, k: nat)
    requires i < |Cut(items)| && k < |Cut(items)[i]|
    ensures Cut(items)[i][k] in items
  {
    var init, t := items[..|items| - 1], items[|items| - 1];
    assert items == init + [t];
    if i < |Cut(init)| && k < |Cut(init)[i]| {
      CutOnlyHolds(init, i, k);
    } else {
      assert Cut(items)[i][k] == t;
    }
  }

  lemma LaterIsHardlyHigher(items: seq<Indexed>, x: Indexed)
    requires items != [] && NearlyRising(items) && x in items[..|items| - 1]
    ensures items[|items| - 1].token.y0 >= x.token.y0 - 0.1
  {
  }

  lemma {:induction false} CutIsFlat(items: seq<Indexed>)
    requires NearlyRising(items)
    ensures forall k :: 0 <= k < |Cut(items)| ==> Flat(Cut(items)[k])
    ensures Separated(Cut(items))
  {
    if items != [] {
      var init, t := items[..|items| - 1], items[|items| - 1];
      CutIsFlat(init);
      var before := Cut(init);
      if before != [] {
        var current: seq<Indexed> := Last(before);
        forall k | 0 <= k < |current|
          ensures t.token.y0 >= current[k].token.y0 - 0.1
        {
          CutOnlyHolds(init, |before| - 1, k);
          LaterIsHardlyHigher(items, current[k]);
        }
        var m :| 0 <= m < |current| && current[m].token.y0 == MinTop(current);
      }
      ExtendIsFlat(before, t);
      ExtendIsSeparated(before, t);
    }
  }

  lemma PageGroupsHold(lib: Library, tokens: seq<Token>, page: int)
    requires RoundsWithin(lib.round1, 0.05)
    ensures var groups := PageGroups(lib, tokens, page);
            && (forall k :: 0 <= k < |groups| ==> FromPage(tokens, page, groups[k]) && Flat(groups[k]))
            && Separated(groups)
  {
    var listed := OnPage(tokens, page);
    var items := Sort(Leq(lib), listed);
    LeqIsOrder(lib);
    SortSorts(Leq(lib), listed);
    SortedNearlyRises(lib, items);
    CutIsFlat(items);
    OnPageFromPage(tokens, page);
    assert forall x :: x in items ==> x in multiset(items) && x in multiset(listed) && x in listed;
    forall g, k | 0 <= g < |Cut(items)| && 0 <= k < |Cut(items)[g]|
      ensures Cut(items)[g][k] in listed
    {
      CutOnlyHolds(items, g, k);
    }
  }

  /** The page whose block an element of the concatenation lies in, and its place there. */
  lemma {:induction false} ConcatOrigin<T>(blocks: int -> seq<T>, pages: seq<int>, i: nat) returns (page: int, k: nat)
    requires i < |Concat(blocks, pages)|
    ensures page in pages && k < |blocks(page)| && Concat(blocks, pages)[i] == blocks(page)[k]
    decreases |pages|
  {
    var init, last := pages[..|pages| - 1], pages[|pages| - 1];
    var before := Concat(blocks, init);
    if i < |before| {
      page, k := ConcatOrigin(blocks, init, i);
    } else {
      page, k := last, i - |before|;
    }
  }

  /** Two neighbours from one page's block are neighbours in that block, when no page is listed twice. */
  lemma {:induction false} ConcatNeighbours<T>(blocks: int -> seq<T>, pageOf: T -> int, pages: seq<int>, i: nat)
    returns (page: int, k: nat)
    requires Distinct(pages) && forall p, k :: 0 <= k < |blocks(p)| ==> pageOf(blocks(p)[k]) == p
    requires 0 < i < |Concat(blocks, pages)|
    requires pageOf(Concat(blocks, pages)[i - 1]) == pageOf(Concat(blocks, pages)[i])
    ensures page in pages && 0 < k < |blocks(page)|
    ensures Concat(blocks, pages)[i - 1] == blocks(page)[k - 1] && Concat(blocks, pages)[i] == blocks(page)[k]
    decreases |pages|
  {
    var init, last := pages[..|pages| - 1], pages[|pages| - 1];
    var before := Concat(blocks, init);
    if i < |before| {
      page, k := ConcatNeighbours(blocks, pageOf, init, i);
    } else {
      page, k := last, i - |before|;
      if k == 0 {
        var p, g := ConcatOrigin(blocks, init, i - 1);
        assert false;
      }
    }
  }

  lemma GroupOfLine(lib: Library, tokens: seq<Token>, i: nat) returns (page: int, group: seq<Indexed>)
    requires RoundsWithin(lib.round1, 0.05) && i < |EvidenceLines(lib, tokens)|
    ensures group != [] && FromPage(tokens, page, group) && Flat(group)
    ensures EvidenceLines(lib, tokens)[i] == TokensToLine(lib, page, group)
  {
    var g;
    page, g := ConcatOrigin(LinesBy(lib, tokens), Dedupe(Pages(tokens)), i);
    PageGroupsHold(lib, tokens, page);
    group := PageGroups(lib, tokens, page)[g];
  }

  lemma GroupsOfNeighbours(lib: Library, tokens: seq<Token>, i: nat)
    returns (page: int, above: seq<Indexed>, below: seq<Indexed>)
    requires RoundsWithin(lib.round1, 0.05) && 0 < i < |EvidenceLines(lib, tokens)|
    requires EvidenceLines(lib, tokens)[i - 1].page == EvidenceLines(lib, tokens)[i].page
    ensures above != [] && below != [] && FromPage(tokens, page, above) && FromPage(tokens, page, below)
    ensures below[0].token.y0 > MinTop(above) + TOLERANCE
    ensures EvidenceLines(lib, tokens)[i - 1] == TokensToLine(lib, page, above)
    ensures EvidenceLines(lib, tokens)[i] == TokensToLine(lib, page, below)
  {
    var g;
    page, g := ConcatNeighbours(LinesBy(lib, tokens), (l: Line) => l.page, Dedupe(Pages(tokens)), i);
    PageGroupsHold(lib, tokens, page);
    above, below := PageGroups(lib, tokens, page)[g - 1], PageGroups(lib, tokens, page)[g];
  }

  /** A line holds tokens of its own page only, and their tops spread over at most the tolerance. */
  lemma LineIsFlatOnOnePage(lib: Library, tokens: seq<Token>, i: nat)
    requires RoundsWithin(lib.round1, 0.05) && i < |EvidenceLines(lib, tokens)|
    ensures var line := EvidenceLines(lib, tokens)[i];
            && line.indices != []
            && (forall k :: 0 <= k < |line.indices| ==>
                              line.indices[k] < |tokens| && tokens[line.indices[k]].page == line.page)
            && (forall j, k :: 0 <= j < |line.indices| && 0 <= k < |line.indices| ==>
                                 tokens[line.indices[j]].y0 - tokens[line.indices[k]].y0 <= TOLERANCE)
  {
    var page, group := GroupOfLine(lib, tokens, i);
  }

  /** `edge` is the rounded least of the listed tokens' values of `side`. */
  ghost predicate LowEdge(round: real -> real, side: Token -> real, tokens: seq<Token>, indices: seq<nat>, edge: real)
    requires forall k :: 0 <= k < |indices| ==> indices[k] < |tokens|
  {
    && (forall k :: 0 <= k < |indices| ==> edge <= round(side(tokens[indices[k]])))
    && (exists k :: 0 <= k < |indices| && edge == round(side(tokens[indices[k]])))
  }

  ghost predicate HighEdge(round: real -> real, side: Token -> real, tokens: seq<Token>, indices: seq<nat>, edge: real)
    requires forall k :: 0 <= k < |indices| ==> indices[k] < |tokens|
  {
    && (forall k :: 0 <= k < |indices| ==> edge >= round(side(tokens[indices[k]])))
    && (exists k :: 0 <= k < |indices| && edge == round(side(tokens[indices[k]])))
  }

  /** Each side of a line's box is reached by one of its tokens and passed by none. */
  lemma LineBoxIsTightHull(lib: Library, tokens: seq<Token>, i: nat)
    requires RoundsWithin(lib.round1, 0.05) && Monotone(lib.round2) && i < |EvidenceLines(lib, tokens)|
    ensures TightHull(lib, tokens, EvidenceLines(lib, tokens)[i])
  {
    var page, group := GroupOfLine(lib, tokens, i);
    GroupBoxIsTightHull(lib, tokens, page, group);
  }

  ghost predicate TightHull(lib: Library, tokens: seq<Token>, line: Line) {
    && (forall k :: 0 <= k < |line.indices| ==> line.indices[k] < |tokens|)
    && LowEdge(lib.round2, (t: Token) => t.x0, tokens, line.indices, line.x0)
    && LowEdge(lib.round2, (t: Token) => t.y0, tokens, line.indices, line.y0)
    && HighEdge(lib.round2, (t: Token) => t.x1, tokens, line.indices, line.x1)
    && HighEdge(lib.round2, (t: Token) => t.y1, tokens, line.indices, line.y1)
  }

  lemma GroupBoxIsTightHull(lib: Library, tokens: seq<Token>, page: int, group: seq<Indexed>)
    requires Monotone(lib.round2) && FromPage(tokens, page, group) && group != []
    ensures TightHull(lib, tokens, TokensToLine(lib, page, group))
  {
    LeastIsLowEdge(lib, (t: Token) => t.x0, tokens, page, group, Map((t: Indexed) => t.token.x0, group));
    LeastIsLowEdge(lib, (t: Token) => t.y0, tokens, page, group, Map((t: Indexed) => t.token.y0, group));
    GreatestIsHighEdge(lib, (t: Token) => t.x1, tokens, page, group, Map((t: Indexed) => t.token.x1, group));
    GreatestIsHighEdge(lib, (t: Token) => t.y1, tokens, page, group, Map((t: Indexed) => t.token.y1, group));
  }

  lemma LeastIsLowEdge(
    lib: Library, side: Token -> real, tokens: seq<Token>, page: int, group: seq<Indexed>, values: seq<real>)
    requires Monotone(lib.round2) && FromPage(tokens, page, group) && group != []
    requires |values| == |group| && forall k :: 0 <= k < |group| ==> values[k] == side(group[k].token)
    ensures LowEdge(lib.round2, side, tokens, Map((t: Indexed) => t.index, group), lib.round2(Least(values)))
  {
    var m :| 0 <= m < |values| && values[m] == Least(values);
    assert forall k :: 0 <= k < |values| ==> values[k] in values;
    var indices := Map((t: Indexed) => t.index, group);
    assert side(tokens[indices[m]]) == Least(values);
  }

  lemma GreatestIsHighEdge(
    lib: Library, side: Token -> real, tokens: seq<Token>, page: int, group: seq<Indexed>, values: seq<real>)
    requires Monotone(lib.round2) && FromPage(tokens, page, group) && group != []
    requires |values| == |group| && forall k :: 0 <= k < |group| ==> values[k] == side(group[k].token)
    ensures HighEdge(lib.round2, side, tokens, Map((t: Indexed) => t.index, group), lib.round2(Greatest(values)))
  {
    var m :| 0 <= m < |values| && values[m] == Greatest(values);
    assert forall k :: 0 <= k < |values| ==> values[k] in values;
    var indices := Map((t: Indexed) => t.index, group);
    assert side(tokens[indices[m]]) == Greatest(values);
  }

  /** The first token of `b` has a top below some token of `a` by more than the tolerance. */
  ghost predicate StartsLower(tokens: seq<Token>, a: seq<nat>, b: seq<nat>) {
    && b != [] && b[0] < |tokens|
    && exists k :: 0 <= k < |a| && a[k] < |tokens| && tokens[b[0]].y0 > tokens[a[k]].y0 + TOLERANCE
  }

  lemma GroupStartsLower(lib: Library, tokens: seq<Token>, page: int, above: seq<Indexed>, below: seq<Indexed>)
    requires above != [] && below != [] && FromPage(tokens, page, above) && FromPage(tokens, page, below)
    requires below[0].token.y0 > MinTop(above) + TOLERANCE
    ensures StartsLower(tokens, TokensToLine(lib, page, above).indices, TokensToLine(lib, page, below).indices)
  {
    var a := TokensToLine(lib, page, above).indices;
    var m :| 0 <= m < |above| && above[m].token.y0 == MinTop(above);
    assert a[m] == above[m].index;
  }

  /** A line is cut from the one before it on its page only where the tops are further apart than the tolerance. */
  lemma NextLineStartsLower(lib: Library, tokens: seq<Token>, i: nat)
    requires RoundsWithin(lib.round1, 0.05) && 0 < i < |EvidenceLines(lib, tokens)|
    requires EvidenceLines(lib, tokens)[i - 1].page == EvidenceLines(lib, tokens)[i].page
    ensures StartsLower(tokens, EvidenceLines(lib, tokens)[i - 1].indices, EvidenceLines(lib, tokens)[i].indices)
  {
    var page, above, below := GroupsOfNeighbours(lib, tokens, i);
    GroupStartsLower(lib, tokens, page, above, below);
  }
}
