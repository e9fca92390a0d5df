/** Grounding an extracted value in the tokens of a document (extraction/grounder.py). */
module Grounder {
  import opened Prelude
  import opened LayoutAnalyzer

  /** Library functions: text normalisation, joining and word counting, difflib's ratio, and rounding. */
  datatype Texts = Texts(
    normalize: string -> string, join: seq<string> -> string, words: string -> nat,
    ratio: (string, string) -> real, round2: real -> real, round4: real -> real)

  /** A ratio lies in [0, 1] and is 1 only for equal texts. */
  ghost predicate RatioLaw(tx: Texts) {
    && (forall a, b :: 0.0 <= tx.ratio(a, b) <= 1.0)
    && (forall a, b :: tx.ratio(a, b) == 1.0 ==> a == b)
  }

  datatype Kind = Unmatched | Fuzzy | Exact

  datatype Box = Box(page: int, x0: real, y0: real, x1: real, y1: real)

  datatype Match = Match(kind: Kind, boxes: seq<Box>, similarity: real)

  /** `size` neighbouring tokens of a page from position `start`. */
  datatype Window = Window(start: int, size: int)

  const EXACT_MATCH_CONFIDENCE := 0.99
  const FUZZY_MATCH_CONFIDENCE := 0.78
  const NO_MATCH_CONFIDENCE := 0.0
  const FUZZY_THRESHOLD := 0.75
  const SLACK := 5

  function MaxWindow(tx: Texts, target: string): nat {
    (if tx.words(target) < 1 then 1 else tx.words(target)) + SLACK
  }

  predicate Fits(tokens: seq<Token>, x: Window) {
    0 <= x.start && 1 <= x.size && x.start + x.size <= |tokens|
  }

  /** The search looks at windows of at most the target's words and five more. */
  predicate InReach(tx: Texts, target: string, tokens: seq<Token>, x: Window) {
    Fits(tokens, x) && x.size <= MaxWindow(tx, target)
  }

  function TextAt(tx: Texts, tokens: seq<Token>, x: Window): string
    requires Fits(tokens, x)
  {
    tx.normalize(tx.join(Map((t: Token) => t.text, tokens[x.start..x.start + x.size])))
  }

  function MergeTokensToBox(tx: Texts, tokens: seq<Token>, page: int): Box
    requires tokens != []
  {
    Box(page, tx.round2(Least(Map((t: Token) => t.x0, tokens))), tx.round2(Least(Map((t: Token) => t.y0, tokens))),
        tx.round2(Greatest(Map((t: Token) => t.x1, tokens))), tx.round2(Greatest(Map((t: Token) => t.y1, tokens))))
  }

  function BoxAt(tx: Texts, tokens: seq<Token>, page: int, x: Window): Box
    requires Fits(tokens, x)
  {
    MergeTokensToBox(tx, tokens[x.start..x.start + x.size], page)
  }

  predicate ExactAt(tx: Texts, target: string, tokens: seq<Token>, x: Window) {
    InReach(tx, target, tokens, x) && TextAt(tx, tokens, x) == target
  }

  predicate FuzzyAt(tx: Texts, target: string, tokens: seq<Token>, x: Window) {
    && InReach(tx, target, tokens, x) && TextAt(tx, tokens, x) != ""
    && tx.ratio(target, TextAt(tx, tokens, x)) >= FUZZY_THRESHOLD
  }

  // ---- The first best window ------------------------------------------------------------------

  /** The order in which windows are looked at. */
  predicate Before(x: Window, y: Window) {
    x.start < y.start || (x.start == y.start && x.size < y.size)
  }

  /** 1 for an exact window, its ratio for a fuzzy one, 0 for any other. */
  function Weight(tx: Texts, target: string, tokens: seq<Token>, x: Window): real {
    if ExactAt(tx, target, tokens, x) then 1.0
    else if FuzzyAt(tx, target, tokens, x) then tx.ratio(target, TextAt(tx, tokens, x))
    else 0.0
  }

  function Weigh(tx: Texts, target: string, tokens: seq<Token>): Window -> real {
    x => Weight(tx, target, tokens, x)
  }

  /** Of the windows before `upto`, none weighs more than `best`, and none before `best` as much. */
  ghost predicate LeadsUpTo(w: Window -> real, upto: Window, best: Window) {
    && Before(best, upto) && w(best) > 0.0
    && (forall x :: Before(x, upto) ==> w(x) <= w(best))
    && (forall x :: Before(x, best) ==> w(x) < w(best))
  }

  ghost predicate BestUpTo(w: Window -> real, upto: Window, best: Option<Window>) {
    match best
    case None => forall x :: Before(x, upto) ==> w(x) <= 0.0
    case Some(b) => LeadsUpTo(w, upto, b)
  }

  /** Of all windows, none weighs more than `best`, and none before `best` as much. */
  ghost predicate FirstBest(w: Window -> real, best: Option<Window>) {
    match best
    case None => forall x :: w(x) <= 0.0
    case Some(b) => && w(b) > 0.0 && (forall x :: w(x) <= w(b)) && (forall x :: Before(x, b) ==> w(x) < w(b))
  }

  lemma Between(x: Window, y: Window)
    ensures Before(x, y) || x == y || Before(y, x)
    ensures Before(x, Window(y.start, y.size + 1)) <==> Before(x, y) || x == y
  {
  }

  lemma BestAfterLook(w: Window -> real, at: Window, best: Option<Window>)
    requires BestUpTo(w, at, best)
    ensures var next := Window(at.start, at.size + 1);
            BestUpTo(w, next, if w(at) > (if best.Some? then w(best.value) else 0.0) then Some(at) else best)
  {
    forall x | Before(x, Window(at.start, at.size + 1))
      ensures Before(x, at) || x == at
    {
      Between(x, at);
    }
  }

  lemma BestAfterRow(w: Window -> real, at: Window, best: Option<Window>)
    requires BestUpTo(w, at, best)
    requires forall x :: Before(x, Window(at.start + 1, 1)) && !Before(x, at) ==> w(x) <= 0.0
    ensures BestUpTo(w, Window(at.start + 1, 1), best)
  {
  }

  lemma BestAfterAll(w: Window -> real, upto: Window, best: Option<Window>)
    requires BestUpTo(w, upto, best) && forall x :: !Before(x, upto) ==> w(x) <= 0.0
    ensures FirstBest(w, best)
  {
  }

  // ---- One page -------------------------------------------------------------------------------

  /** The answer that reports a given window, or none. */
  function Report(tx: Texts, target: string, tokens: seq<Token>, page: int, best: Option<Window>): Match
    requires best.Some? ==> Fits(tokens, best.value)
  {
    match best
    case None => Match(Unmatched, [], 0.0)
    case Some(b) =>
      Match(if ExactAt(tx, target, tokens, b) then Exact else Fuzzy,
            [BoxAt(tx, tokens, page, b)], Weight(tx, target, tokens, b))
  }

  /** The answer for a page is its first best window. */
  ghost predicate AnswersPage(tx: Texts, target: string, tokens: seq<Token>, page: int, m: Match) {
    exists best: Option<Window> ::
      && FirstBest(Weigh(tx, target, tokens), best) && (best.Some? ==> Fits(tokens, best.value))
      && m == Report(tx, target, tokens, page, best)
  }

  lemma WeightsAreBounded(tx: Texts, target: string, tokens: seq<Token>, x: Window)
    requires RatioLaw(tx)
    ensures 0.0 <= Weight(tx, target, tokens, x) <= 1.0
    ensures Weight(tx, target, tokens, x) == 1.0 <==> ExactAt(tx, target, tokens, x)
    ensures Weight(tx, target, tokens, x) > 0.0 <==> ExactAt(tx, target, tokens, x) || FuzzyAt(tx, target, tokens, x)
    ensures Weight(tx, target, tokens, x) > 0.0 ==> Weight(tx, target, tokens, x) >= FUZZY_THRESHOLD
  {
  }

  lemma ExactIsBest(tx: Texts, target: string, tokens: seq<Token>, x: Window, best: Option<Window>)
    requires RatioLaw(tx) && ExactAt(tx, target, tokens, x)
    requires BestUpTo(Weigh(tx, target, tokens), x, best)
    requires best.Some? ==> Weight(tx, target, tokens, best.value) < 1.0
    ensures FirstBest(Weigh(tx, target, tokens), Some(x))
  {
    forall y
      ensures Weigh(tx, target, tokens)(y) <= 1.0
    {
      WeightsAreBounded(tx, target, tokens, y);
    }
  }

  /** `m` reports `best`, the best of the windows before `upto`, none of which is exact. */
  ghost predicate Reports(
    tx: Texts, target: string, tokens: seq<Token>, page: int, upto: Window, best: Option<Window>, m: Match)
  {
    && BestUpTo(Weigh(tx, target, tokens), upto, best) && (best.Some? ==> Fits(tokens, best.value))
    && m == Report(tx, target, tokens, page, best) && m.similarity < 1.0
  }

  ghost predicate Searching(tx: Texts, target: string, tokens: seq<Token>, page: int, upto: Window, m: Match) {
    exists best :: Reports(tx, target, tokens, page, upto, best, m)
  }

  lemma SearchingAfterLook(tx: Texts, target: string, tokens: seq<Token>, page: int, x: Window, m: Match)
    requires RatioLaw(tx) && Searching(tx, target, tokens, page, x, m)
    requires InReach(tx, target, tokens, x) && !ExactAt(tx, target, tokens, x)
    ensures Searching(tx, target, tokens, page, Window(x.start, x.size + 1),
                      if Weight(tx, target, tokens, x) > m.similarity
                      then Match(Fuzzy, [BoxAt(tx, tokens, page, x)], Weight(tx, target, tokens, x)) else m)
  {
    var w := Weigh(tx, target, tokens);
    var best :| Reports(tx, target, tokens, page, x, best, m);
    BestAfterLook(w, x, best);
    WeightsAreBounded(tx, target, tokens, x);
    var (next, better) := (Window(x.start, x.size + 1), if w(x) > m.similarity then Some(x) else best);
    assert Reports(tx, target, tokens, page, next, better, Report(tx, target, tokens, page, better));
  }

  lemma SearchingAfterRow(tx: Texts, target: string, tokens: seq<Token>, page: int, x: Window, m: Match)
    requires Searching(tx, target, tokens, page, x, m)
    requires 0 <= x.start && 1 <= x.size && !InReach(tx, target, tokens, x)
    ensures Searching(tx, target, tokens, page, Window(x.start + 1, 1), m)
  {
    var w := Weigh(tx, target, tokens);
    var best :| Reports(tx, target, tokens, page, x, best, m);
    forall y | Before(y, Window(x.start + 1, 1)) && !Before(y, x)
      ensures w(y) <= 0.0
    {
      assert !InReach(tx, target, tokens, y);
    }
    BestAfterRow(w, x, best);
    assert Reports(tx, target, tokens, page, Window(x.start + 1, 1), best, m);
  }

  lemma SearchEnds(tx: Texts, target: string, tokens: seq<Token>, page: int, m: Match)
    requires Searching(tx, target, tokens, page, Window(|tokens|, 1), m)
    ensures AnswersPage(tx, target, tokens, page, m)
  {
    var w := Weigh(tx, target, tokens);
    var end := Window(|tokens|, 1);
    var best :| Reports(tx, target, tokens, page, end, best, m);
    forall y | !Before(y, end)
      ensures w(y) <= 0.0
    {
      assert !InReach(tx, target, tokens, y);
    }
    BestAfterAll(w, end, best);
  }

  lemma SearchHits(tx: Texts, target: string, tokens: seq<Token>, page: int, x: Window, m: Match)
    requires RatioLaw(tx) && Searching(tx, target, tokens, page, x, m) && ExactAt(tx, target, tokens, x)
    ensures AnswersPage(tx, target, tokens, page, Match(Exact, [BoxAt(tx, tokens, page, x)], 1.0))
  {
    var best :| Reports(tx, target, tokens, page, x, best, m);
    ExactIsBest(tx, target, tokens, x, best);
    assert Report(tx, target, tokens, page, Some(x)) == Match(Exact, [BoxAt(tx, tokens, page, x)], 1.0);
  }

  /** Looking at one window; `better` is the answer so far. */
  method Look(tx: Texts, target: string, tokens: seq<Token>, page: int, x: Window, m: Match)
    returns (exact: bool, better: Match)
    requires target != "" && RatioLaw(tx)
    requires InReach(tx, target, tokens, x) && Searching(tx, target, tokens, page, x, m)
    ensures exact <==> ExactAt(tx, target, tokens, x)
    ensures exact ==> AnswersPage(tx, target, tokens, page, better)
    ensures !exact ==> Searching(tx, target, tokens, page, Window(x.start, x.size + 1), better)
  {
    exact, better := false, m;
    var text := TextAt(tx, tokens, x);
    if text != target {
      SearchingAfterLook(tx, target, tokens, page, x, m);
    }
    if text != "" {
      if text == target {
        SearchHits(tx, target, tokens, page, x, m);
        return true, Match(Exact, [BoxAt(tx, tokens, page, x)], 1.0);
      }
      var similarity := tx.ratio(target, text);
      if similarity >= FUZZY_THRESHOLD && similarity > m.similarity {
        better := Match(Fuzzy, [BoxAt(tx, tokens, page, x)], similarity);
      }
    }
  }

  lemma SearchStarts(tx: Texts, target: string, tokens: seq<Token>, page: int)
    ensures Searching(tx, target, tokens, page, Window(0, 1), Match(Unmatched, [], 0.0))
  {
    assert Reports(tx, target, tokens, page, Window(0, 1), None, Match(Unmatched, [], 0.0));
  }

  /** min(len(page_tokens), target_word_count + 5) */
  function Longest(tx: Texts, target: string, tokens: seq<Token>): nat {
    if |tokens| < MaxWindow(tx, target) then |tokens| else MaxWindow(tx, target)
  }

  lemma LongestReaches(tx: Texts, target: string, tokens: seq<Token>, start: nat, size: nat)
    requires 1 <= size
    ensures size <= Longest(tx, target, tokens) && start + size <= |tokens| <==>
            InReach(tx, target, tokens, Window(start, size))
  {
  }

  /** The inner loop: the windows that begin at `start`. */
  method LookFrom(tx: Texts, target: string, tokens: seq<Token>, page: int, start: nat, before: Match)
    returns (exact: bool, m: Match)
    requires target != "" && RatioLaw(tx)
    requires Searching(tx, target, tokens, page, Window(start, 1), before)
    ensures exact ==> AnswersPage(tx, target, tokens, page, m)
    ensures !exact ==> Searching(tx, target, tokens, page, Window(start + 1, 1), m)
  {
    var maxWindow := Longest(tx, target, tokens);
    m := before;
    var size := 1;
    while size <= maxWindow && start + size <= |tokens|
      invariant 1 <= size
      invariant Searching(tx, target, tokens, page, Window(start, size), m)
    {
      LongestReaches(tx, target, tokens, start, size);
      exact, m := Look(tx, target, tokens, page, Window(start, size), m);
      if exact {
        return;
      }
      size := size + 1;
    }
    LongestReaches(tx, target, tokens, start, size);
    SearchingAfterRow(tx, target, tokens, page, Window(start, size), m);
    exact := false;
  }

  method FindBestMatchOnPage(tx: Texts, target: string, tokens: seq<Token>, page: int) returns (m: Match)
    requires target != "" && RatioLaw(tx)
    ensures AnswersPage(tx, target, tokens, page, m)
  {
    m := Match(Unmatched, [], 0.0);
    SearchStarts(tx, target, tokens, page);
    for start := 0 to |tokens|
      invariant Searching(tx, target, tokens, page, Window(start, 1), m)
    {
      var exact;
      exact, m := LookFrom(tx, target, tokens, page, start, m);
      if exact {
        return;
      }
    }
    SearchEnds(tx, target, tokens, page, m);
  }

  // ---- The whole document ---------------------------------------------------------------------

  /** The tokens of one page, in document order. */
  function PageTokens(tokens: seq<Token>, page: int): seq<Token> {
    Map((t: Indexed) => t.token, OnPage(tokens, page))
  }

  lemma {:induction false} UnlistedPageIsEmpty(tokens: seq<Token>, page: int)
    requires page !in Pages(tokens)
    ensures OnPage(tokens, page) == []
  {
    if tokens != [] {
      var n := |tokens| - 1;
      assert Pages(tokens)[n] == tokens[n].page;
      assert Pages(tokens)[..n] == Pages(tokens[..n]);
      UnlistedPageIsEmpty(tokens[..n], page);
    }
  }

  /** What an answer for a page says about its windows. */
  lemma AnswerMeans(tx: Texts, target: string, tokens: seq<Token>, page: int, m: Match)
    requires RatioLaw(tx) && AnswersPage(tx, target, tokens, page, m)
    ensures forall x :: Weight(tx, target, tokens, x) <= m.similarity
    ensures m.kind == Unmatched <==> m.similarity == 0.0
    ensures m.kind == Unmatched ==> m.boxes == []
    ensures m.kind != Unmatched ==>
              exists x :: Fits(tokens, x) && m == Report(tx, target, tokens, page, Some(x)) && m.similarity > 0.0
  {
    var w := Weigh(tx, target, tokens);
    var best: Option<Window> :|
      FirstBest(w, best) && (best.Some? ==> Fits(tokens, best.value)) && m == Report(tx, target, tokens, page, best);
    forall x
      ensures Weight(tx, target, tokens, x) <= m.similarity
    {
      assert w(x) == Weight(tx, target, tokens, x);
    }
    if best.Some? {
      assert w(best.value) > 0.0;
    }
  }

  function PageWeigh(tx: Texts, target: string, tokens: seq<Token>): (int, Window) -> real {
    (page, x) => Weight(tx, target, PageTokens(tokens, page), x)
  }

  ghost function PageAnswers(tx: Texts, target: string, tokens: seq<Token>): (int, Match) -> bool {
    (page, m) => AnswersPage(tx, target, PageTokens(tokens, page), page, m)
  }

  /** Of the first `k` pages, none has a window of more weight than `m`, which some page answers. */
  ghost predicate BestAmong(
    weigh: (int, Window) -> real, answers: (int, Match) -> bool, pages: seq<int>, k: nat, m: Match)
    requires k <= |pages|
  {
    && m.similarity >= 0.0
    && (forall i, x :: 0 <= i < k ==> weigh(pages[i], x) <= m.similarity)
    && (m == Match(Unmatched, [], 0.0) || (m.kind != Unmatched && exists i :: 0 <= i < k && answers(pages[i], m)))
  }

  lemma BestAmongNext(
    weigh: (int, Window) -> real, answers: (int, Match) -> bool, pages: seq<int>, k: nat, m: Match, found: Match)
    requires k < |pages| && BestAmong(weigh, answers, pages, k, m)
    requires answers(pages[k], found) && (found.similarity > 0.0 ==> found.kind != Unmatched)
    requires forall x :: weigh(pages[k], x) <= found.similarity
    ensures BestAmong(weigh, answers, pages, k + 1, if found.similarity > m.similarity then found else m)
  {
  }

  ghost predicate BestOfPages(tx: Texts, target: string, tokens: seq<Token>, pages: seq<int>, k: nat, m: Match)
    requires k <= |pages|
  {
    BestAmong(PageWeigh(tx, target, tokens), PageAnswers(tx, target, tokens), pages, k, m)
  }

  method BestPage(tx: Texts, target: string, tokens: seq<Token>) returns (m: Match)
    requires target != "" && RatioLaw(tx)
    ensures BestOfPages(tx, target, tokens, Dedupe(Pages(tokens)), |Dedupe(Pages(tokens))|, m)
  {
    var pages, byPage := GroupByPage(tokens);
    m := Match(Unmatched, [], 0.0);
    for k := 0 to |pages|
      invariant BestOfPages(tx, target, tokens, pages, k, m)
    {
      var page := pages[k];
      assert page in pages;
      var found := FindBestMatchOnPage(tx, target, Map((t: Indexed) => t.token, byPage[page]), page);
      AnswerMeans(tx, target, PageTokens(tokens, page), page, found);
      BestAmongNext(PageWeigh(tx, target, tokens), PageAnswers(tx, target, tokens), pages, k, m, found);
      if found.similarity > m.similarity {
        m := found;
      }
    }
  }

  /** `x` is the window of page `page` that the answer is taken from. */
  ghost predicate TakenFrom(tx: Texts, tokens: seq<Token>, boxes: seq<Box>, page: int, x: Window) {
    Fits(PageTokens(tokens, page), x) && boxes == [BoxAt(tx, PageTokens(tokens, page), page, x)]
  }

  ghost predicate HasExact(tx: Texts, target: string, tokens: seq<Token>) {
    exists page: int, x :: ExactAt(tx, target, PageTokens(tokens, page), x)
  }

  ghost predicate HasFuzzy(tx: Texts, target: string, tokens: seq<Token>) {
    exists page: int, x :: FuzzyAt(tx, target, PageTokens(tokens, page), x)
  }

  /** No window of the document is heavier than the best page's answer. */
  lemma NothingHeavier(tx: Texts, target: string, tokens: seq<Token>, m: Match, page: int, x: Window)
    requires RatioLaw(tx)
    requires BestOfPages(tx, target, tokens, Dedupe(Pages(tokens)), |Dedupe(Pages(tokens))|, m)
    requires ExactAt(tx, target, PageTokens(tokens, page), x) || FuzzyAt(tx, target, PageTokens(tokens, page), x)
    ensures Weight(tx, target, PageTokens(tokens, page), x) <= m.similarity
  {
    if page !in Pages(tokens) {
      UnlistedPageIsEmpty(tokens, page);
    }
    var pages := Dedupe(Pages(tokens));
    var i :| 0 <= i < |pages| && pages[i] == page;
    assert PageWeigh(tx, target, tokens)(pages[i], x) <= m.similarity;
  }

  /** The window behind the best page's answer. */
  lemma BestIsTaken(tx: Texts, target: string, tokens: seq<Token>, m: Match) returns (page: int, x: Window)
    requires RatioLaw(tx) && m.kind != Unmatched
    requires BestOfPages(tx, target, tokens, Dedupe(Pages(tokens)), |Dedupe(Pages(tokens))|, m)
    ensures TakenFrom(tx, tokens, m.boxes, page, x)
    ensures m.similarity == Weight(tx, target, PageTokens(tokens, page), x) > 0.0
    ensures m.kind == Exact <==> ExactAt(tx, target, PageTokens(tokens, page), x)
    ensures m.kind == Fuzzy ==> FuzzyAt(tx, target, PageTokens(tokens, page), x)
  {
    var pages := Dedupe(Pages(tokens));
    var i :| 0 <= i < |pages| && PageAnswers(tx, target, tokens)(pages[i], m);
    page := pages[i];
    AnswerMeans(tx, target, PageTokens(tokens, page), page, m);
    x :| && Fits(PageTokens(tokens, page), x) && m.similarity > 0.0
         && m == Report(tx, target, PageTokens(tokens, page), page, Some(x));
    WeightsAreBounded(tx, target, PageTokens(tokens, page), x);
  }

  lemma BestKind(tx: Texts, target: string, tokens: seq<Token>, m: Match)
    requires RatioLaw(tx)
    requires BestOfPages(tx, target, tokens, Dedupe(Pages(tokens)), |Dedupe(Pages(tokens))|, m)
    ensures m.kind == Exact <==> HasExact(tx, target, tokens)
    ensures m.kind == Fuzzy <==> !HasExact(tx, target, tokens) && HasFuzzy(tx, target, tokens)
  {
    if HasExact(tx, target, tokens) {
      var page: int, x :| ExactAt(tx, target, PageTokens(tokens, page), x);
      NothingHeavier(tx, target, tokens, m, page, x);
      WeightsAreBounded(tx, target, PageTokens(tokens, page), x);
    } else if HasFuzzy(tx, target, tokens) {
      var page: int, x :| FuzzyAt(tx, target, PageTokens(tokens, page), x);
      NothingHeavier(tx, target, tokens, m, page, x);
      WeightsAreBounded(tx, target, PageTokens(tokens, page), x);
    }
    if m.kind != Unmatched {
      var p, y := BestIsTaken(tx, target, tokens, m);
      WeightsAreBounded(tx, target, PageTokens(tokens, p), y);
    }
  }

  /** An exact window is reported whenever one of reach exists, a most similar one otherwise. */
  method GroundValue(tx: Texts, searchText: string, tokens: seq<Token>)
    returns (boxes: seq<Box>, confidence: real, kind: Kind)
    requires RatioLaw(tx)
    ensures var target := tx.normalize(searchText);
            kind == Exact <==> target != "" && HasExact(tx, target, tokens)
    ensures var target := tx.normalize(searchText);
            kind == Fuzzy <==> target != "" && !HasExact(tx, target, tokens) && HasFuzzy(tx, target, tokens)
    ensures kind == Exact ==>
              && confidence == EXACT_MATCH_CONFIDENCE
              && exists page: int, x :: TakenFrom(tx, tokens, boxes, page, x)
                                        && ExactAt(tx, tx.normalize(searchText), PageTokens(tokens, page), x)
    ensures kind == Fuzzy ==>
              exists page: int, x ::
                && TakenFrom(tx, tokens, boxes, page, x)
                && MostSimilar(tx, tx.normalize(searchText), tokens, page, x)
                && confidence == Confidence(tx, tx.normalize(searchText), tokens, page, x)
    ensures kind == Unmatched ==> boxes == [] && confidence == NO_MATCH_CONFIDENCE
  {
    var target := tx.normalize(searchText);
    if target == "" {
      return [], NO_MATCH_CONFIDENCE, Unmatched;
    }
    var m := BestPage(tx, target, tokens);
    BestKind(tx, target, tokens, m);
    if m.kind == Unmatched {
      return [], NO_MATCH_CONFIDENCE, Unmatched;
    }
    ghost var page, x := BestIsTaken(tx, target, tokens, m);
    if m.kind == Exact {
      return m.boxes, EXACT_MATCH_CONFIDENCE, Exact;
    }
    BestIsMostSimilar(tx, target, tokens, m, page, x);
    var rounded := tx.round4(m.similarity);
    return m.boxes, if rounded > FUZZY_MATCH_CONFIDENCE then rounded else FUZZY_MATCH_CONFIDENCE, Fuzzy;
  }

  /** No window of the document that is close enough to count is closer to the target. */
  ghost predicate MostSimilar(tx: Texts, target: string, tokens: seq<Token>, page: int, x: Window) {
    && FuzzyAt(tx, target, PageTokens(tokens, page), x)
    && forall p: int, y :: FuzzyAt(tx, target, PageTokens(tokens, p), y) ==>
                             tx.ratio(target, TextAt(tx, PageTokens(tokens, p), y)) <=
                             tx.ratio(target, TextAt(tx, PageTokens(tokens, page), x))
  }

  function Confidence(tx: Texts, target: string, tokens: seq<Token>, page: int, x: Window): real
    requires Fits(PageTokens(tokens, page), x)
  {
    var rounded := tx.round4(tx.ratio(target, TextAt(tx, PageTokens(tokens, page), x)));
    if rounded > FUZZY_MATCH_CONFIDENCE then rounded else FUZZY_MATCH_CONFIDENCE
  }

  lemma BestIsMostSimilar(tx: Texts, target: string, tokens: seq<Token>, m: Match, page: int, x: Window)
    requires RatioLaw(tx) && !HasExact(tx, target, tokens)
    requires BestOfPages(tx, target, tokens, Dedupe(Pages(tokens)), |Dedupe(Pages(tokens))|, m)
    requires FuzzyAt(tx, target, PageTokens(tokens, page), x)
    requires m.similarity == Weight(tx, target, PageTokens(tokens, page), x)
    ensures MostSimilar(tx, target, tokens, page, x)
    ensures m.similarity == tx.ratio(target, TextAt(tx, PageTokens(tokens, page), x))
  {
    assert !ExactAt(tx, target, PageTokens(tokens, page), x);
    forall p: int, y | FuzzyAt(tx, target, PageTokens(tokens, p), y)
      ensures tx.ratio(target, TextAt(tx, PageTokens(tokens, p), y)) <= m.similarity
    {
      assert !ExactAt(tx, target, PageTokens(tokens, p), y);
      NothingHeavier(tx, target, tokens, m, p, y);
    }
  }
}
