/** Choosing the tokens that carry an extracted value (extraction/ocr/pp_chatocr_v4.py). */
module PieceMatcher {
  import opened Prelude

  datatype Point = Point(x: real, y: real)

  datatype Bbox = Bbox(x0: real, y0: real, x1: real, y1: real)

  /** A page, a width or a height of 0 counts as absent, and so does a polygon without points. */
  datatype Token = Token(
    preview: string, pageNumber: int, page: int, bbox: Option<Bbox>, polygon: seq<Point>, space: string,
    confidence: Option<real>, width: int, height: int)

  datatype Geometry = Geometry(
    page: int, bbox: Option<Bbox>, polygon: seq<Point>, space: string, confidence: Option<real>, width: int,
    height: int)

  /** Library functions: text normalisation, splitting at white space, and rounding to two and four decimals. */
  datatype Texts = Texts(
    norm: string -> string, split: string -> seq<string>, round2: real -> real, round4: real -> real)

  const SPACE := "pp_chatocr_image_pixels"

  /** The tokens chosen, as positions among those that have a preview. */
  datatype Choice = Whole(at: nat) | Pieces(each: seq<nat>) | Overlap(at: nat) | NotFound

  function Previewed(tokens: seq<Token>): seq<Token> {
    if tokens == [] then []
    else
      var before, t := Previewed(tokens[..|tokens| - 1]), tokens[|tokens| - 1];
      if t.preview == "" then before else before + [t]
  }

  function NormOf(tx: Texts, tokens: seq<Token>): (texts: seq<string>)
    ensures |texts| == |tokens|
  {
    seq(|tokens|, i requires 0 <= i < |tokens| => tx.norm(tokens[i].preview))
  }

  predicate OccursAt(a: string, b: string, i: nat) {
    i + |a| <= |b| && b[i..i + |a|] == a
  }

  predicate Infix(a: string, b: string) {
    exists i :: 0 <= i <= |b| && OccursAt(a, b, i)
  }

  /** One of the texts lies inside the other; a blank one lies inside every text. */
  predicate Overlaps(a: string, b: string) {
    Infix(a, b) || Infix(b, a)
  }

  predicate Increasing(at: seq<nat>) {
    forall i, j :: 0 <= i < j < |at| ==> at[i] < at[j]
  }

  /** The texts at positions `at`, read left to right, are the pieces. */
  predicate Spells(at: seq<nat>, pieces: seq<string>, texts: seq<string>) {
    && |at| == |pieces| && Increasing(at)
    && forall k :: 0 <= k < |at| ==> at[k] < |texts| && texts[at[k]] == pieces[k]
  }

  predicate LeftOf(a: seq<nat>, b: seq<nat>) {
    |a| == |b| && forall k :: 0 <= k < |a| ==> a[k] <= b[k]
  }

  /** `at` spells the pieces further left than any other positions do. */
  ghost predicate SpellsLeftmost(at: seq<nat>, pieces: seq<string>, texts: seq<string>) {
    Spells(at, pieces, texts) && forall other :: Spells(other, pieces, texts) ==> LeftOf(at, other)
  }

  lemma FrontSpells(at: seq<nat>, pieces: seq<string>, texts: seq<string>, k: nat)
    requires k <= |pieces| && Spells(at, pieces, texts)
    ensures Spells(at[..k], pieces[..k], texts)
  {
  }

  function StartAfter(matched: seq<nat>): nat {
    if matched == [] then 0 else Last(matched) + 1
  }

  /** A next piece cannot be spelt left of where the greedy search looks for it. */
  lemma NothingSkipped(matched: seq<nat>, pieces: seq<string>, texts: seq<string>, k: nat, other: seq<nat>)
    requires k < |pieces| && SpellsLeftmost(matched, pieces[..k], texts)
    requires Spells(other, pieces[..k + 1], texts)
    ensures LeftOf(matched, other[..k]) && StartAfter(matched) <= other[k]
    ensures texts[other[k]] == pieces[k]
  {
    FrontSpells(other, pieces[..k + 1], texts, k);
    assert pieces[..k + 1][..k] == pieces[..k];
    assert pieces[..k + 1][k] == pieces[k];
    if k > 0 {
      assert matched[k - 1] <= other[..k][k - 1] < other[k];
    }
  }

  /** The inner loop: the first position from `start` on whose text is the piece. */
  method FindPiece(piece: string, texts: seq<string>, start: nat) returns (found: Option<nat>)
    ensures found.Some? ==> start <= found.value < |texts| && texts[found.value] == piece
    ensures forall j :: start <= j < (if found.Some? then found.value else |texts|) ==> texts[j] != piece
  {
    var j := start;
    while j < |texts|
      invariant start <= j
      invariant forall i :: start <= i < j && i < |texts| ==> texts[i] != piece
    {
      if texts[j] == piece {
        return Some(j);
      }
      j := j + 1;
    }
    return None;
  }

  lemma OneMorePiece(matched: seq<nat>, pieces: seq<string>, texts: seq<string>, k: nat, found: nat)
    requires k < |pieces| && SpellsLeftmost(matched, pieces[..k], texts)
    requires StartAfter(matched) <= found < |texts| && texts[found] == pieces[k]
    requires forall j :: StartAfter(matched) <= j < found ==> texts[j] != pieces[k]
    ensures SpellsLeftmost(matched + [found], pieces[..k + 1], texts)
  {
    var longer := matched + [found];
    forall i, j | 0 <= i < j < |longer|
      ensures longer[i] < longer[j]
    {
      if j == k && i < k - 1 {
        assert matched[i] < matched[k - 1];
      }
    }
    assert Spells(longer, pieces[..k + 1], texts);
    forall other | Spells(other, pieces[..k + 1], texts)
      ensures LeftOf(longer, other)
    {
      NothingSkipped(matched, pieces, texts, k, other);
      assert forall i :: 0 <= i < k ==> other[..k][i] == other[i];
    }
  }

  /** The greedy search finds the leftmost spelling, and fails only when there is none at all. */
  method MatchPieces(pieces: seq<string>, texts: seq<string>) returns (matched: seq<nat>)
    requires pieces != []
    ensures matched != [] ==> SpellsLeftmost(matched, pieces, texts)
    ensures matched != [] <==> exists at :: Spells(at, pieces, texts)
  {
    matched := [];
    var start := 0;
    for k := 0 to |pieces|
      invariant start == StartAfter(matched)
      invariant SpellsLeftmost(matched, pieces[..k], texts)
    {
      var found := FindPiece(pieces[k], texts, start);
      if found.None? {
        forall at | Spells(at, pieces, texts)
          ensures false
        {
          FrontSpells(at, pieces, texts, k + 1);
          NothingSkipped(matched, pieces, texts, k, at[..k + 1]);
        }
        return [];
      }
      OneMorePiece(matched, pieces, texts, k, found.value);
      matched := matched + [found.value];
      start := found.value + 1;
    }
    assert pieces[..|pieces|] == pieces;
  }

  // ---- The geometry of the chosen tokens ------------------------------------------------------

  function FirstSet(values: seq<int>, default: int): int {
    if values == [] then default else if values[0] != 0 then values[0] else FirstSet(values[1..], default)
  }

  function Copied(t: Token): Geometry {
    Geometry(FirstSet([t.pageNumber, t.page], 1), t.bbox, t.polygon, if t.space != "" then t.space else SPACE,
             t.confidence, t.width, t.height)
  }

  function Corner(p: Point): Bbox {
    Bbox(p.x, p.y, p.x, p.y)
  }

  function Corners(points: seq<Point>): (boxes: seq<Bbox>)
    ensures |boxes| == |points| && forall i :: 0 <= i < |boxes| ==> boxes[i] == Corner(points[i])
  {
    seq(|points|, i requires 0 <= i < |points| => Corner(points[i]))
  }

  function Points(items: seq<Token>): (points: seq<Point>)
    ensures forall p :: p in points <==> exists i :: 0 <= i < |items| && p in items[i].polygon
    ensures points == [] <==> forall i :: 0 <= i < |items| ==> items[i].polygon == []
  {
    if items == [] then []
    else
      var n := |items| - 1;
      assert items == items[..n] + [items[n]];
      Points(items[..n]) + items[n].polygon
  }

  function Boxes(items: seq<Token>): (boxes: seq<Bbox>)
    ensures forall b :: b in boxes <==> exists i :: 0 <= i < |items| && items[i].bbox == Some(b)
    ensures boxes == [] <==> forall i :: 0 <= i < |items| ==> items[i].bbox.None?
  {
    if items == [] then []
    else
      var n := |items| - 1;
      assert items == items[..n] + [items[n]];
      Boxes(items[..n]) + (if items[n].bbox.Some? then [items[n].bbox.value] else [])
  }

  function Lower(a: real, b: real): real {
    if b < a then b else a
  }

  function Higher(a: real, b: real): real {
    if b > a then b else a
  }

  /** The tight hull: no box reaches beyond it, and each of its sides is the side of a box. */
  function Merge(boxes: seq<Bbox>): (hull: Bbox)
    requires boxes != []
    ensures forall b :: b in boxes ==> hull.x0 <= b.x0 && hull.y0 <= b.y0 && b.x1 <= hull.x1 && b.y1 <= hull.y1
    ensures (exists b :: b in boxes && b.x0 == hull.x0) && (exists b :: b in boxes && b.y0 == hull.y0)
    ensures (exists b :: b in boxes && b.x1 == hull.x1) && (exists b :: b in boxes && b.y1 == hull.y1)
  {
    var n := |boxes| - 1;
    var last := boxes[n];
    assert last in boxes && boxes == boxes[..n] + [last];
    if n == 0 then last
    else
      var m := Merge(boxes[..n]);
      Bbox(Lower(m.x0, last.x0), Lower(m.y0, last.y0), Higher(m.x1, last.x1), Higher(m.y1, last.y1))
  }

  function Rounded(tx: Texts, b: Bbox): Bbox {
    Bbox(tx.round2(b.x0), tx.round2(b.y0), tx.round2(b.x1), tx.round2(b.y1))
  }

  function Confidences(tx: Texts, items: seq<Token>): seq<real> {
    if items == [] then []
    else
      var last := items[|items| - 1].confidence;
      Confidences(tx, items[..|items| - 1]) + (if last.Some? then [tx.round4(last.value)] else [])
  }

  function Sum(values: seq<real>): real {
    if values == [] then 0.0 else Sum(values[..|values| - 1]) + values[|values| - 1]
  }

  function Average(tx: Texts, items: seq<Token>): Option<real> {
    var values := Confidences(tx, items);
    if values == [] then None else Some(tx.round4(Sum(values) / |values| as real))
  }

  function Widths(items: seq<Token>): seq<int> {
    seq(|items|, i requires 0 <= i < |items| => items[i].width)
  }

  function Heights(items: seq<Token>): seq<int> {
    seq(|items|, i requires 0 <= i < |items| => items[i].height)
  }

  /** The boxes of the tokens count only where none of them has a polygon. */
  function Outlines(items: seq<Token>): seq<Bbox> {
    if Points(items) != [] then Corners(Points(items)) else Boxes(items)
  }

  /** One geometry for several tokens. */
  function Combined(tx: Texts, items: seq<Token>): Option<Geometry>
    requires items != []
  {
    if Outlines(items) == [] then None
    else
      Some(Geometry(FirstSet([items[0].pageNumber], 1), Some(Rounded(tx, Merge(Outlines(items)))), Points(items), SPACE,
                    Average(tx, items), FirstSet(Widths(items), 0), FirstSet(Heights(items), 0)))
  }

  /** `h` reaches around every rounded outline, and no side of it lies further out than one of theirs. */
  ghost predicate TightHull(tx: Texts, h: Bbox, outlines: seq<Bbox>) {
    && (forall b :: b in outlines ==> Within(Rounded(tx, b), h))
    && (exists b :: b in outlines && tx.round2(b.x0) == h.x0) && (exists b :: b in outlines && tx.round2(b.y0) == h.y0)
    && (exists b :: b in outlines && tx.round2(b.x1) == h.x1) && (exists b :: b in outlines && tx.round2(b.y1) == h.y1)
  }

  predicate Within(b: Bbox, h: Bbox) {
    h.x0 <= b.x0 && h.y0 <= b.y0 && b.x1 <= h.x1 && b.y1 <= h.y1
  }

  lemma MergeIsHull(tx: Texts, outlines: seq<Bbox>)
    requires outlines != [] && Monotone(tx.round2)
    ensures TightHull(tx, Rounded(tx, Merge(outlines)), outlines)
  {
    var hull := Merge(outlines);
    var left :| left in outlines && left.x0 == hull.x0;
    var top :| top in outlines && top.y0 == hull.y0;
    var right :| right in outlines && right.x1 == hull.x1;
    var bottom :| bottom in outlines && bottom.y1 == hull.y1;
    assert tx.round2(left.x0) == Rounded(tx, hull).x0 && tx.round2(top.y0) == Rounded(tx, hull).y0;
    assert tx.round2(right.x1) == Rounded(tx, hull).x1 && tx.round2(bottom.y1) == Rounded(tx, hull).y1;
    forall b | b in outlines
      ensures Within(Rounded(tx, b), Rounded(tx, hull))
    {
    }
  }

  /** The outlines are the corners of the tokens' polygons, or their boxes where no token has a polygon. */
  lemma OutlinesAre(items: seq<Token>, b: Bbox)
    ensures b in Outlines(items) <==>
            if forall i :: 0 <= i < |items| ==> items[i].polygon == []
            then exists i :: 0 <= i < |items| && items[i].bbox == Some(b)
            else exists i, k :: 0 <= i < |items| && 0 <= k < |items[i].polygon| && b == Corner(items[i].polygon[k])
  {
    var points := Points(items);
    if points != [] {
      if k :| 0 <= k < |points| && Corners(points)[k] == b {
        assert points[k] in points;
        var i :| 0 <= i < |items| && points[k] in items[i].polygon;
        var j :| 0 <= j < |items[i].polygon| && items[i].polygon[j] == points[k];
        assert b == Corner(items[i].polygon[j]);
      }
      if i, k :| 0 <= i < |items| && 0 <= k < |items[i].polygon| && b == Corner(items[i].polygon[k]) {
        assert items[i].polygon[k] in points;
        var j :| 0 <= j < |points| && points[j] == items[i].polygon[k];
        assert Corners(points)[j] == b;
      }
    }
  }

  /**
   Pieces have a common geometry unless none has a box or a polygon, and its box is the tight hull of their rounded
   outlines.
   */
  lemma CombinedIsHull(tx: Texts, items: seq<Token>)
    requires items != [] && Monotone(tx.round2)
    ensures Combined(tx, items).None? <==>
            forall i :: 0 <= i < |items| ==> items[i].bbox.None? && items[i].polygon == []
    ensures var g := Combined(tx, items);
            g.Some? ==> g.value.bbox.Some? && TightHull(tx, g.value.bbox.value, Outlines(items))
  {
    if Combined(tx, items).Some? {
      MergeIsHull(tx, Outlines(items));
    }
  }

  // ---- The whole match ------------------------------------------------------------------------

  ghost predicate FirstThat(p: string -> bool, texts: seq<string>, i: nat) {
    i < |texts| && p(texts[i]) && forall j :: 0 <= j < i ==> !p(texts[j])
  }

  function Picked(tokens: seq<Token>, at: seq<nat>): seq<Token>
    requires forall k :: 0 <= k < |at| ==> at[k] < |tokens|
  {
    seq(|at|, k requires 0 <= k < |at| => tokens[at[k]])
  }

  ghost predicate InPieces(tx: Texts, wanted: string, texts: seq<string>) {
    |tx.split(wanted)| >= 2 && exists at :: Spells(at, tx.split(wanted), texts)
  }

  /** Whole token, else pieces in reading order, else the first overlap: each stage only where those before fail. */
  ghost predicate Chosen(tx: Texts, wanted: string, texts: seq<string>, choice: Choice) {
    match choice
    case Whole(i) => wanted != "" && FirstThat(x => x == wanted, texts, i)
    case Pieces(at) =>
      && wanted != "" && wanted !in texts
      && |tx.split(wanted)| >= 2 && SpellsLeftmost(at, tx.split(wanted), texts)
    case Overlap(i) =>
      && wanted != "" && wanted !in texts && FirstThat(x => Overlaps(wanted, x), texts, i)
      && !InPieces(tx, wanted, texts)
    case NotFound =>
      wanted == "" || (!InPieces(tx, wanted, texts) && forall i :: 0 <= i < |texts| ==> !Overlaps(wanted, texts[i]))
  }

  ghost function GeometryOf(tx: Texts, wanted: string, tokens: seq<Token>, choice: Choice): Option<Geometry>
    requires Chosen(tx, wanted, NormOf(tx, tokens), choice)
  {
    match choice
    case Whole(i) => Some(Copied(tokens[i]))
    case Pieces(at) => Combined(tx, Picked(tokens, at))
    case Overlap(i) => Some(Copied(tokens[i]))
    case NotFound => None
  }

  ghost predicate Matches(tx: Texts, wanted: string, tokens: seq<Token>, geometry: Option<Geometry>) {
    exists choice ::
      && Chosen(tx, wanted, NormOf(tx, tokens), choice)
      && geometry == GeometryOf(tx, wanted, tokens, choice)
  }

  /** There is only one choice, so only one geometry. */
  lemma MatchIsUnique(tx: Texts, wanted: string, tokens: seq<Token>, a: Option<Geometry>, b: Option<Geometry>)
    requires Matches(tx, wanted, tokens, a) && Matches(tx, wanted, tokens, b)
    ensures a == b
  {
    var texts := NormOf(tx, tokens);
    var left :| Chosen(tx, wanted, texts, left) && a == GeometryOf(tx, wanted, tokens, left);
    var right :| Chosen(tx, wanted, texts, right) && b == GeometryOf(tx, wanted, tokens, right);
    ChoiceIsUnique(tx, wanted, texts, left, right);
  }

  lemma ChoiceIsUnique(tx: Texts, wanted: string, texts: seq<string>, a: Choice, b: Choice)
    requires Chosen(tx, wanted, texts, a) && Chosen(tx, wanted, texts, b)
    ensures a == b
  {
    OccursInItself(wanted);
    if a.Pieces? && b.Pieces? {
      assert LeftOf(a.each, b.each) && LeftOf(b.each, a.each);
      assert a.each == b.each;
    }
  }

  /** The geometry of the token or tokens chosen. */
  method MatchGeometryForValue(tx: Texts, value: string, tokens: seq<Token>) returns (geometry: Option<Geometry>)
    ensures Matches(tx, tx.norm(value), Previewed(tokens), geometry)
  {
    var own := Previewed(tokens);
    var texts := NormOf(tx, own);
    var wanted := tx.norm(value);
    if wanted == "" {
      assert Chosen(tx, wanted, texts, NotFound);
      return None;
    }
    for i := 0 to |texts|
      invariant forall j :: 0 <= j < i ==> texts[j] != wanted
    {
      if texts[i] == wanted {
        assert Chosen(tx, wanted, texts, Whole(i));
        return Some(Copied(own[i]));
      }
    }
    var pieces := tx.split(wanted);
    if |pieces| >= 2 {
      var matched := MatchPieces(pieces, texts);
      if matched != [] {
        assert Chosen(tx, wanted, texts, Pieces(matched));
        return Combined(tx, Picked(own, matched));
      }
    }
    for i := 0 to |texts|
      invariant forall j :: 0 <= j < i ==> !Overlaps(wanted, texts[j])
    {
      if Overlaps(wanted, texts[i]) {
        assert Chosen(tx, wanted, texts, Overlap(i));
        return Some(Copied(own[i]));
      }
    }
    assert Chosen(tx, wanted, texts, NotFound);
    return None;
  }

  /** Some text that is not blank occurs in both. */
  ghost predicate ShareText(a: string, b: string) {
    exists c :: c != "" && Infix(c, a) && Infix(c, b)
  }

  lemma OccursInItself(a: string)
    ensures Infix(a, a) && (forall b :: Infix("", b))
  {
    assert OccursAt(a, a, 0);
    forall b
      ensures Infix("", b)
    {
      assert OccursAt("", b, 0);
    }
  }

  /**
   * The overlap stage is meant to find a token that shares text with the value. It does exactly when the token's
   * normalised text is not blank: a token of punctuation alone overlaps every value.
   */
  lemma OverlapSharesTextUnlessBlank(wanted: string, text: string)
    requires wanted != ""
    ensures Overlaps(wanted, "")
    ensures Overlaps(wanted, text) ==> (ShareText(wanted, text) <==> text != "")
  {
    OccursInItself(wanted);
    OccursInItself(text);
    if text == "" {
      forall c | c != ""
        ensures !Infix(c, text)
      {
        assert forall i :: 0 <= i <= |text| ==> !OccursAt(c, text, i);
      }
    } else if Infix(wanted, text) {
      assert Infix(wanted, wanted);
    } else if Infix(text, wanted) {
      assert Infix(text, text);
    }
  }
}
