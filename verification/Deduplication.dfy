/** Fuzzy deduplication of field candidates (extraction/deduplication.py). */
module Deduplication {
  import opened Prelude
  import opened Ordering

  datatype Box = Box(page: int, x0: real, y0: real, x1: real, y1: real)

  /** Everything about a candidate except what merging accumulates. */
  datatype Core = Core(
    labelText: string,
    normalizedValue: string,
    rawValue: string,
    page: int,
    category: string,
    confidence: real)

  datatype Candidate = Candidate(
    core: Core,
    boxes: seq<Box>,
    detectedBy: seq<string>,
    frequency: nat)

  /** The text functions taken from libraries: SequenceMatcher.ratio, strip().lower() and whitespace squashing. */
  datatype Matcher = Matcher(ratio: (string, string) -> real, fold: string -> string, squash: string -> string)

  const GENERIC_LABELS: set<string> := {"identifier", "score", "date"}

  function ValueOf(m: Matcher, c: Core): string {
    m.squash(if c.normalizedValue != "" then c.normalizedValue else c.rawValue)
  }

  /** The body of the loop of _find_duplicate_index: `candidate` repeats the kept `existing`. */
  predicate IsDuplicate(m: Matcher, existing: Core, candidate: Core) {
    var (value, existingValue) := (ValueOf(m, candidate), ValueOf(m, existing));
    && existing.page == candidate.page
    && value != "" && existingValue != ""
    && var similarity := m.ratio(existingValue, value);
       var (text, existingText) := (m.fold(candidate.labelText), m.fold(existing.labelText));
       || (existingText == text && similarity >= 0.85)
       || (similarity >= 0.95 && (existingText in GENERIC_LABELS || text in GENERIC_LABELS))
       || (existing.category == candidate.category && similarity >= 0.9)
  }

  /** The first entry of `kept` from index `from` on that `candidate` repeats. */
  function FirstDuplicate(m: Matcher, kept: seq<Core>, candidate: Core, from: nat := 0): (r: Option<nat>)
    requires from <= |kept|
    ensures r.None? ==> forall i :: from <= i < |kept| ==> !IsDuplicate(m, kept[i], candidate)
    ensures r.Some? ==>
              && from <= r.value < |kept| && IsDuplicate(m, kept[r.value], candidate)
              && forall i :: from <= i < r.value ==> !IsDuplicate(m, kept[i], candidate)
    decreases |kept| - from
  {
    if from == |kept| then None
    else if IsDuplicate(m, kept[from], candidate) then Some(from)
    else FirstDuplicate(m, kept, candidate, from + 1)
  }

  function Cores(s: seq<Candidate>): (cores: seq<Core>)
    ensures |cores| == |s| && forall i :: 0 <= i < |s| ==> cores[i] == s[i].core
  {
    seq(|s|, i requires 0 <= i < |s| => s[i].core)
  }

  /** The winner's boxes, then those of the loser that are not there yet. */
  function MergeBoxes(merged: seq<Box>, boxes: seq<Box>): (r: seq<Box>)
    ensures forall b :: b in r <==> b in merged || b in boxes
    decreases |boxes|
  {
    if boxes == [] then merged
    else
      var init := MergeBoxes(merged, boxes[..|boxes| - 1]);
      var b := boxes[|boxes| - 1];
      if b in init then init else init + [b]
  }

  function Merge(left: Candidate, right: Candidate): Candidate {
    var (winner, loser) := if left.core.confidence >= right.core.confidence then (left, right) else (right, left);
    winner.(boxes := MergeBoxes(winner.boxes, loser.boxes),
            detectedBy := Dedupe(winner.detectedBy + loser.detectedBy),
            frequency := (if winner.frequency >= loser.frequency then winner.frequency else loser.frequency) + 1)
  }

  /** The sort key (-confidence, page, label). */
  predicate CandidateLeq(a: Candidate, b: Candidate) {
    || a.core.confidence > b.core.confidence
    || (a.core.confidence == b.core.confidence
        && (a.core.page < b.core.page || (a.core.page == b.core.page && TextLeq(a.core.labelText, b.core.labelText))))
  }

  /** One turn of the loop of fuzzy_deduplicate. */
  function Absorb(m: Matcher, kept: seq<Candidate>, c: Candidate): seq<Candidate> {
    match FirstDuplicate(m, Cores(kept), c.core)
    case None => kept + [c]
    case Some(i) => kept[i := Merge(kept[i], c)]
  }

  function AbsorbAll(m: Matcher, cs: seq<Candidate>): seq<Candidate> {
    if cs == [] then [] else Absorb(m, AbsorbAll(m, cs[..|cs| - 1]), cs[|cs| - 1])
  }

  function Deduplicated(m: Matcher, candidates: seq<Candidate>): seq<Candidate> {
    AbsorbAll(m, Sort(CandidateLeq, candidates))
  }

  // ---- The loops ------------------------------------------------------------------------------

  method FindDuplicateIndex(m: Matcher, kept: seq<Candidate>, candidate: Candidate) returns (index: Option<nat>)
    ensures index == FirstDuplicate(m, Cores(kept), candidate.core)
  {
    var i := 0;
    while i < |kept|
      invariant 0 <= i <= |kept|
      invariant FirstDuplicate(m, Cores(kept), candidate.core) == FirstDuplicate(m, Cores(kept), candidate.core, i)
    {
      if IsDuplicate(m, kept[i].core, candidate.core) {
        return Some(i);
      }
      i := i + 1;
    }
    return None;
  }

  method MergeCandidates(left: Candidate, right: Candidate) returns (merged: Candidate)
    ensures merged == Merge(left, right)
  {
    var winner, loser := left, right;
    if left.core.confidence < right.core.confidence {
      winner, loser := right, left;
    }
    var boxes := winner.boxes;
    var i := 0;
    while i < |loser.boxes|
      invariant 0 <= i <= |loser.boxes|
      invariant boxes == MergeBoxes(winner.boxes, loser.boxes[..i])
    {
      assert loser.boxes[..i + 1][..i] == loser.boxes[..i];
      if loser.boxes[i] !in boxes {
        boxes := boxes + [loser.boxes[i]];
      }
      i := i + 1;
    }
    assert loser.boxes[..i] == loser.boxes;
    var frequency := if winner.frequency >= loser.frequency then winner.frequency else loser.frequency;
    merged := winner.(boxes := boxes, detectedBy := Dedupe(winner.detectedBy + loser.detectedBy),
                      frequency := frequency + 1);
  }

  lemma AbsorbNext(m: Matcher, cs: seq<Candidate>, i: nat)
    requires i < |cs|
    ensures AbsorbAll(m, cs[..i + 1]) == Absorb(m, AbsorbAll(m, cs[..i]), cs[i])
  {
    assert cs[..i + 1][..i] == cs[..i];
  }

  /** The turn of the loop: append the candidate or merge it into the entry it repeats. */
  method KeepOrMerge(m: Matcher, kept: seq<Candidate>, c: Candidate) returns (kept': seq<Candidate>)
    ensures kept' == Absorb(m, kept, c)
  {
    var index := FindDuplicateIndex(m, kept, c);
    if index.None? {
      return kept + [c];
    }
    var merged := MergeCandidates(kept[index.value], c);
    return kept[index.value := merged];
  }

  method FuzzyDeduplicate(m: Matcher, candidates: seq<Candidate>) returns (kept: seq<Candidate>)
    ensures kept == Deduplicated(m, candidates)
  {
    var sorted := Sort(CandidateLeq, candidates);
    kept := [];
    var i := 0;
    while i < |sorted|
      invariant 0 <= i <= |sorted|
      invariant kept == AbsorbAll(m, sorted[..i])
    {
      AbsorbNext(m, sorted, i);
      kept := KeepOrMerge(m, kept, sorted[i]);
      i := i + 1;
    }
    assert sorted[..i] == sorted;
  }

  // ---- The reference: groups around a first candidate -----------------------------------------

  /** The cores of the first members. */
  function Heads(groups: seq<seq<Candidate>>): (h: seq<Core>)
    requires forall i :: 0 <= i < |groups| ==> groups[i] != []
    ensures |h| == |groups| && forall i :: 0 <= i < |h| ==> h[i] == groups[i][0].core
  {
    seq(|groups|, i requires 0 <= i < |groups| => groups[i][0].core)
  }

  /** Each candidate joins the first group whose first member it repeats, or starts a new one. */
  function Groups(m: Matcher, cs: seq<Candidate>): (groups: seq<seq<Candidate>>)
    ensures forall i :: 0 <= i < |groups| ==> groups[i] != []
  {
    if cs == [] then []
    else
      var before, c := Groups(m, cs[..|cs| - 1]), cs[|cs| - 1];
      match FirstDuplicate(m, Heads(before), c.core)
      case None => before + [[c]]
      case Some(i) => before[i := before[i] + [c]]
  }

  predicate BoxIn(b: Box, group: seq<Candidate>) {
    exists i :: 0 <= i < |group| && b in group[i].boxes
  }

  predicate AllSingle(cs: seq<Candidate>) {
    forall i :: 0 <= i < |cs| ==> cs[i].frequency == 1
  }

  ghost predicate SameBoxes(k: Candidate, group: seq<Candidate>) {
    forall b :: b in k.boxes <==> BoxIn(b, group)
  }

  /** The first member of a group won over all others, and all others repeat it. */
  ghost predicate FirstWins(m: Matcher, k: Candidate, group: seq<Candidate>) {
    && group != [] && k.core == group[0].core
    && (forall i :: 0 <= i < |group| ==> group[i].core.confidence <= k.core.confidence)
    && (forall i :: 0 < i < |group| ==> IsDuplicate(m, k.core, group[i].core))
  }

  /** `k` is what a group becomes: its first member, carrying every box and the size of the group. */
  ghost predicate Summarises(m: Matcher, k: Candidate, group: seq<Candidate>) {
    && FirstWins(m, k, group)
    && SameBoxes(k, group)
    && (AllSingle(group) ==> k.frequency == |group|)
  }

  lemma BoxesGrow(k: Candidate, group: seq<Candidate>, c: Candidate)
    requires SameBoxes(k, group) && c.core.confidence <= k.core.confidence
    ensures SameBoxes(Merge(k, c), group + [c])
  {
    var group' := group + [c];
    forall b
      ensures BoxIn(b, group') <==> BoxIn(b, group) || b in c.boxes
    {
      if BoxIn(b, group) {
        var i :| 0 <= i < |group| && b in group[i].boxes;
        assert b in group'[i].boxes;
      }
      if b in c.boxes {
        assert b in group'[|group|].boxes;
      }
    }
  }

  lemma SummaryGrows(m: Matcher, k: Candidate, group: seq<Candidate>, c: Candidate)
    requires Summarises(m, k, group) && c.core.confidence <= k.core.confidence && IsDuplicate(m, k.core, c.core)
    ensures Summarises(m, Merge(k, c), group + [c])
  {
    BoxesGrow(k, group, c);
    if AllSingle(group + [c]) {
      assert forall i :: 0 <= i < |group| ==> group[i] == (group + [c])[i];
      assert (group + [c])[|group|] == c;
    }
  }

  lemma SummaryOfOne(m: Matcher, c: Candidate)
    ensures Summarises(m, c, [c])
  {
    forall b
      ensures b in c.boxes <==> BoxIn(b, [c])
    {
      if b in c.boxes {
        assert b in [c][0].boxes;
      }
    }
    assert [c][0] == c;
  }

  ghost predicate AllSummarise(m: Matcher, kept: seq<Candidate>, groups: seq<seq<Candidate>>) {
    |kept| == |groups| && forall i :: 0 <= i < |kept| ==> Summarises(m, kept[i], groups[i])
  }

  /** No kept candidate is smaller in the sort order than what comes later. */
  ghost predicate AllBefore(kept: seq<Candidate>, c: Candidate) {
    forall i :: 0 <= i < |kept| ==> CandidateLeq(kept[i], c)
  }

  lemma {:induction false} KeptBefore(m: Matcher, cs: seq<Candidate>, c: Candidate)
    requires Sorted(CandidateLeq, cs) && forall i :: 0 <= i < |cs| ==> CandidateLeq(cs[i], c)
    ensures AllBefore(AbsorbAll(m, cs), c)
  {
    if cs != [] {
      var init, last := cs[..|cs| - 1], cs[|cs| - 1];
      KeptBefore(m, init, c);
      KeptBefore(m, init, last);
    }
  }

  /** Over a sorted list, the candidates kept are exactly the summaries of the groups, one each, in order. */
  lemma {:induction false} KeptSummariseGroups(m: Matcher, cs: seq<Candidate>)
    requires Sorted(CandidateLeq, cs)
    ensures AllSummarise(m, AbsorbAll(m, cs), Groups(m, cs))
  {
    if cs != [] {
      var init, c := cs[..|cs| - 1], cs[|cs| - 1];
      KeptSummariseGroups(m, init);
      KeptBefore(m, init, c);
      var kept, groups := AbsorbAll(m, init), Groups(m, init);
      assert Cores(kept) == Heads(groups);
      SummaryOfOne(m, c);
      match FirstDuplicate(m, Cores(kept), c.core) {
        case None =>
        case Some(i) => SummaryGrows(m, kept[i], groups[i], c);
      }
    }
  }

  // ---- Main results ---------------------------------------------------------------------------

  lemma CandidateOrder()
    ensures TotalPreorder(CandidateLeq)
  {
    forall a, b
      ensures CandidateLeq(a, b) || CandidateLeq(b, a)
    {
      TextLeqTotal(a.core.labelText, b.core.labelText);
    }
    forall a, b, c | CandidateLeq(a, b) && CandidateLeq(b, c)
      ensures CandidateLeq(a, c)
    {
      if TextLeq(a.core.labelText, b.core.labelText) && TextLeq(b.core.labelText, c.core.labelText) {
        TextLeqTransitive(a.core.labelText, b.core.labelText, c.core.labelText);
      }
    }
  }

  function Concat(groups: seq<seq<Candidate>>): seq<Candidate> {
    if groups == [] then [] else Concat(groups[..|groups| - 1]) + groups[|groups| - 1]
  }

  lemma {:induction false} ConcatGrows(groups: seq<seq<Candidate>>, i: nat, c: Candidate)
    requires i < |groups|
    ensures multiset(Concat(groups[i := groups[i] + [c]])) == multiset(Concat(groups)) + multiset{c}
    ensures |Concat(groups[i := groups[i] + [c]])| == |Concat(groups)| + 1
  {
    var n := |groups| - 1;
    var groups' := groups[i := groups[i] + [c]];
    if i == n {
      assert groups'[..n] == groups[..n];
    } else {
      assert groups'[..n] == groups[..n][i := groups[..n][i] + [c]];
      ConcatGrows(groups[..n], i, c);
    }
  }

  /** The groups divide the input: every candidate is in one of them, once. */
  lemma {:induction false} GroupsDivide(m: Matcher, cs: seq<Candidate>)
    ensures multiset(Concat(Groups(m, cs))) == multiset(cs) && |Concat(Groups(m, cs))| == |cs|
  {
    if cs != [] {
      var init, c := cs[..|cs| - 1], cs[|cs| - 1];
      var before := Groups(m, init);
      GroupsDivide(m, init);
      assert cs == init + [c];
      match FirstDuplicate(m, Heads(before), c.core) {
        case None =>
          assert (before + [[c]])[..|before|] == before;
        case Some(i) =>
          ConcatGrows(before, i, c);
      }
    }
  }

  /**
   fuzzy_deduplicate keeps, for each group of the input, its first candidate in the sort order: the one of highest
   confidence, which every other member repeats, now carrying the boxes of all of them.
   */
  lemma KeepsOnePerGroup(m: Matcher, candidates: seq<Candidate>)
    ensures AllSummarise(m, Deduplicated(m, candidates), Groups(m, Sort(CandidateLeq, candidates)))
    ensures multiset(Concat(Groups(m, Sort(CandidateLeq, candidates)))) == multiset(candidates)
  {
    CandidateOrder();
    SortSorts(CandidateLeq, candidates);
    KeptSummariseGroups(m, Sort(CandidateLeq, candidates));
    GroupsDivide(m, Sort(CandidateLeq, candidates));
  }

  ghost predicate NoneRepeats(m: Matcher, kept: seq<Candidate>) {
    forall i, j :: 0 <= i < j < |kept| ==> !IsDuplicate(m, kept[i].core, kept[j].core)
  }

  lemma {:induction false} AbsorbedDoNotRepeat(m: Matcher, cs: seq<Candidate>)
    requires Sorted(CandidateLeq, cs)
    ensures NoneRepeats(m, AbsorbAll(m, cs)) && Sorted(CandidateLeq, AbsorbAll(m, cs))
  {
    if cs != [] {
      var init, c := cs[..|cs| - 1], cs[|cs| - 1];
      AbsorbedDoNotRepeat(m, init);
      KeptBefore(m, init, c);
      var kept := AbsorbAll(m, init);
      if i :| FirstDuplicate(m, Cores(kept), c.core) == Some(i) {
        assert Merge(kept[i], c).core == kept[i].core;
        assert Cores(AbsorbAll(m, cs)) == Cores(kept);
      }
    }
  }

  /** No kept candidate repeats an earlier one. */
  lemma NoDuplicateIsKept(m: Matcher, candidates: seq<Candidate>)
    ensures NoneRepeats(m, Deduplicated(m, candidates))
    ensures Sorted(CandidateLeq, Deduplicated(m, candidates))
  {
    CandidateOrder();
    SortSorts(CandidateLeq, candidates);
    AbsorbedDoNotRepeat(m, Sort(CandidateLeq, candidates));
  }

  lemma {:induction false} NothingToAbsorb(m: Matcher, cs: seq<Candidate>)
    requires NoneRepeats(m, cs)
    ensures AbsorbAll(m, cs) == cs
  {
    if cs != [] {
      var init := cs[..|cs| - 1];
      NothingToAbsorb(m, init);
      assert cs == init + [cs[|cs| - 1]];
    }
  }

  /** A second pass changes nothing. */
  lemma DeduplicationIsIdempotent(m: Matcher, candidates: seq<Candidate>)
    ensures Deduplicated(m, Deduplicated(m, candidates)) == Deduplicated(m, candidates)
  {
    NoDuplicateIsKept(m, candidates);
    SortOfSorted(CandidateLeq, Deduplicated(m, candidates));
    NothingToAbsorb(m, Deduplicated(m, candidates));
  }

  lemma {:induction false} BoxInConcat(b: Box, groups: seq<seq<Candidate>>)
    ensures BoxIn(b, Concat(groups)) <==> exists i :: 0 <= i < |groups| && BoxIn(b, groups[i])
  {
    if groups != [] {
      var n := |groups| - 1;
      BoxInConcat(b, groups[..n]);
      var front, last := Concat(groups[..n]), groups[n];
      var all: seq<Candidate> := front + last;
      if BoxIn(b, all) {
        var i :| 0 <= i < |all| && b in all[i].boxes;
        if i >= |front| {
          assert b in last[i - |front|].boxes;
        } else {
          assert b in front[i].boxes;
        }
      }
      if BoxIn(b, front) {
        var i :| 0 <= i < |front| && b in front[i].boxes;
        assert b in all[i].boxes;
      }
      if BoxIn(b, last) {
        var i :| 0 <= i < |last| && b in last[i].boxes;
        assert b in all[|front| + i].boxes;
      }
    }
  }

  lemma BoxInBag(b: Box, s: seq<Candidate>, t: seq<Candidate>)
    requires multiset(s) == multiset(t) && BoxIn(b, s)
    ensures BoxIn(b, t)
  {
    var i :| 0 <= i < |s| && b in s[i].boxes;
    assert s[i] in multiset(t);
    var j :| 0 <= j < |t| && t[j] == s[i];
  }

  /** No bounding box is lost and none is invented. */
  lemma BoxesAreKept(m: Matcher, candidates: seq<Candidate>, b: Box)
    ensures BoxIn(b, Deduplicated(m, candidates)) <==> BoxIn(b, candidates)
  {
    var kept, groups := Deduplicated(m, candidates), Groups(m, Sort(CandidateLeq, candidates));
    KeepsOnePerGroup(m, candidates);
    BoxInConcat(b, groups);
    if BoxIn(b, candidates) {
      BoxInBag(b, candidates, Concat(groups));
      var i :| 0 <= i < |groups| && BoxIn(b, groups[i]);
      assert SameBoxes(kept[i], groups[i]);
    }
    if BoxIn(b, kept) {
      var i :| 0 <= i < |kept| && b in kept[i].boxes;
      assert SameBoxes(kept[i], groups[i]);
      BoxInBag(b, Concat(groups), candidates);
    }
  }

  function TotalFrequency(s: seq<Candidate>): nat {
    if s == [] then 0 else TotalFrequency(s[..|s| - 1]) + s[|s| - 1].frequency
  }

  lemma {:induction false} FrequenciesOfGroups(m: Matcher, kept: seq<Candidate>, groups: seq<seq<Candidate>>)
    requires AllSummarise(m, kept, groups) && AllSingle(Concat(groups))
    ensures TotalFrequency(kept) == |Concat(groups)|
  {
    if groups != [] {
      var n := |groups| - 1;
      var front, last := Concat(groups[..n]), groups[n];
      assert forall i :: 0 <= i < |front| ==> front[i] == (front + last)[i];
      assert forall i :: 0 <= i < |last| ==> last[i] == (front + last)[|front| + i];
      assert AllSummarise(m, kept[..n], groups[..n]);
      FrequenciesOfGroups(m, kept[..n], groups[..n]);
      assert Summarises(m, kept[n], groups[n]);
    }
  }

  /** When every input counts once, the frequencies of the kept candidates add up to the number of inputs. */
  lemma FrequenciesAddUp(m: Matcher, candidates: seq<Candidate>)
    requires AllSingle(candidates)
    ensures TotalFrequency(Deduplicated(m, candidates)) == |candidates|
  {
    var groups := Groups(m, Sort(CandidateLeq, candidates));
    KeepsOnePerGroup(m, candidates);
    CandidateOrder();
    SortSorts(CandidateLeq, candidates);
    GroupsDivide(m, Sort(CandidateLeq, candidates));
    forall i | 0 <= i < |Concat(groups)|
      ensures Concat(groups)[i].frequency == 1
    {
      assert Concat(groups)[i] in multiset(candidates);
      var j :| 0 <= j < |candidates| && candidates[j] == Concat(groups)[i];
    }
    FrequenciesOfGroups(m, Deduplicated(m, candidates), groups);
  }
}
