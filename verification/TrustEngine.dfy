/** Field decisions and the two document verdicts (trust/trust_engine.py, agent_orchestration/graph.py). */
module TrustEngine {
  import opened Ordering
  import opened Prelude
  import opened TrustFindings

  datatype VerifierStatus = Confirmed | Contradicted | TimedOut | Failed | NotRun | NotRelevant

  datatype Verifier = Verifier(
    taskId: string, fieldId: string, connectorId: string, status: VerifierStatus, confidence: real,
    codes: seq<string>, highAssurance: bool)

  datatype Decision = Decision(status: Status, final: real, codes: seq<string>)

  datatype Scores = Scores(extraction: real, ai: real, grounding: real)

  predicate Unit(x: real) {
    0.0 <= x <= 1.0
  }

  predicate InRange(s: Scores, verifier: Option<Verifier>) {
    Unit(s.extraction) && Unit(s.ai) && Unit(s.grounding) && (verifier.Some? ==> Unit(verifier.value.confidence))
  }

  function VerificationConfidence(verifier: Option<Verifier>): real {
    if verifier.Some? then verifier.value.confidence else 0.0
  }

  function Fused(s: Scores, verifier: Option<Verifier>): real {
    0.40 * s.extraction + 0.25 * s.ai + 0.25 * VerificationConfidence(verifier) + 0.10 * s.grounding
  }

  function Or(codes: seq<string>, default: string): seq<string> {
    if codes != [] then codes else [default]
  }

  /** The decision on one field; `blank` says that no value was extracted. */
  function DetermineFieldDecision(s: Scores, verifier: Option<Verifier>, mandatory: bool, blank: bool, unsafe: bool)
    : Decision
  {
    var confidence := VerificationConfidence(verifier);
    if unsafe then Decision(Red, 0.0, ["UNSAFE_DOCUMENT"])
    else if mandatory && blank then Decision(Red, 0.0, ["MISSING_MANDATORY_FIELD"])
    else if verifier.Some? && verifier.value.status == Contradicted then
      Decision(Red, 0.0, Or(verifier.value.codes, "VERIFIER_MISMATCH"))
    else if verifier.Some? && verifier.value.status == TimedOut then
      if verifier.value.highAssurance then Decision(Red, 0.0, Or(verifier.value.codes, "MANDATORY_VERIFIER_TIMEOUT"))
      else Decision(Amber, confidence, Or(verifier.value.codes, "OPTIONAL_VERIFIER_TIMEOUT"))
    else if verifier.Some? && verifier.value.status == Failed then
      Decision(if verifier.value.highAssurance then Red else Amber, confidence,
               Or(verifier.value.codes, "VERIFIER_ERROR"))
    else
      var fused := Fused(s, verifier);
      if fused >= 0.80 then
        Decision(Green, fused, if verifier.None? || verifier.value.status == NotRun
                               then ["UNVERIFIED_HIGH_CONFIDENCE"] else [])
      else if fused >= 0.40 then Decision(Amber, fused, ["LOW_CONFIDENCE_REVIEW_REQUIRED"])
      else Decision(Red, fused, ["INSUFFICIENT_CONFIDENCE"])
  }

  /** A green field rests on a verifier of confidence at least 0.2 that neither contradicted it nor broke down. */
  lemma GreenFieldNeedsVerifier(
    s: Scores, verifier: Option<Verifier>, mandatory: bool, blank: bool, unsafe: bool)
    requires InRange(s, verifier)
    requires DetermineFieldDecision(s, verifier, mandatory, blank, unsafe).status == Green
    ensures !unsafe && !(mandatory && blank) && verifier.Some? && verifier.value.confidence >= 0.2
    ensures verifier.value.status !in {Contradicted, TimedOut, Failed}
  {
  }

  /** The bound is exact: some scores make a field green with this verifier exactly from a confidence of 0.2 up. */
  lemma GreenIsReachableIff(v: Verifier)
    requires Unit(v.confidence)
    ensures (exists s :: InRange(s, Some(v)) && DetermineFieldDecision(s, Some(v), true, false, false).status == Green)
            <==> v.confidence >= 0.2 && v.status !in {Contradicted, TimedOut, Failed}
  {
    var best := Scores(1.0, 1.0, 1.0);
    assert InRange(best, Some(v));
    if v.confidence >= 0.2 && v.status !in {Contradicted, TimedOut, Failed} {
      assert Fused(best, Some(v)) >= 0.80;
      assert DetermineFieldDecision(best, Some(v), true, false, false).status == Green;
    }
    forall s | InRange(s, Some(v)) && DetermineFieldDecision(s, Some(v), true, false, false).status == Green
      ensures v.confidence >= 0.2 && v.status !in {Contradicted, TimedOut, Failed}
    {
      GreenFieldNeedsVerifier(s, Some(v), true, false, false);
    }
  }

  /** Raising scores or the verifier's confidence never makes the decision worse. */
  lemma MoreConfidenceIsNoWorse(
    a: Scores, b: Scores, v: Verifier, w: Verifier, mandatory: bool, blank: bool, unsafe: bool)
    requires a.extraction <= b.extraction && a.ai <= b.ai && a.grounding <= b.grounding
    requires w == v.(confidence := w.confidence) && v.confidence <= w.confidence
    ensures Severity(DetermineFieldDecision(b, Some(w), mandatory, blank, unsafe).status) <=
            Severity(DetermineFieldDecision(a, Some(v), mandatory, blank, unsafe).status)
  {
    assert Fused(a, Some(v)) <= Fused(b, Some(w));
  }

  // ---- The verdict of a document --------------------------------------------------------------

  function Reasons(decisions: seq<Decision>): seq<string> {
    if decisions == [] then []
    else
      var last := decisions[|decisions| - 1];
      Reasons(decisions[..|decisions| - 1]) + (if last.status != Green then last.codes else [])
  }

  ghost predicate AnyDecision(decisions: seq<Decision>, s: Status) {
    exists i :: 0 <= i < |decisions| && decisions[i].status == s
  }

  ghost function Verdict(decisions: seq<Decision>, unsafe: bool): Status {
    if unsafe || AnyDecision(decisions, Red) then Red
    else if AnyDecision(decisions, Amber) then Amber
    else Green
  }

  /** One red field makes the document red; otherwise one amber field makes it amber. */
  method BuildFinalVerdict(decisions: seq<Decision>, unsafe: bool, documentCodes: seq<string>)
    returns (outcome: Status, reasons: seq<string>)
    ensures outcome == Verdict(decisions, unsafe)
    ensures reasons ==
            if unsafe then documentCodes + ["UNSAFE_DOCUMENT"] else Dedupe(documentCodes + Reasons(decisions))
  {
    reasons := documentCodes;
    if unsafe {
      return Red, reasons + ["UNSAFE_DOCUMENT"];
    }
    var hasRed := exists i :: 0 <= i < |decisions| && decisions[i].status == Red;
    var hasAmber := exists i :: 0 <= i < |decisions| && decisions[i].status == Amber;
    for i := 0 to |decisions|
      invariant reasons == documentCodes + Reasons(decisions[..i])
    {
      assert decisions[..i + 1][..i] == decisions[..i];
      if decisions[i].status != Green {
        reasons := reasons + decisions[i].codes;
      }
    }
    assert decisions[..|decisions|] == decisions;
    reasons := Dedupe(reasons);
    outcome := if hasRed then Red else if hasAmber then Amber else Green;
  }

  /** The policy step: an empty list of decisions is amber when dynamic schema inference warned, green otherwise. */
  ghost function PolicyVerdict(decisions: seq<Decision>, unsafe: bool, schemaWarned: bool): Status {
    if schemaWarned && decisions == [] then Amber else Verdict(decisions, unsafe)
  }

  /** An unsafe document is red exactly if it has a decision or schema inference did not warn; amber otherwise. */
  lemma UnsafeIsRedIff(decisions: seq<Decision>, schemaWarned: bool)
    ensures PolicyVerdict(decisions, true, schemaWarned) == Red <==> decisions != [] || !schemaWarned
    ensures PolicyVerdict(decisions, true, schemaWarned) != Green
  {
  }

  /** Every field decision copies the status of its finding. */
  ghost predicate Copied(findings: seq<Finding>, decisions: seq<Decision>) {
    |decisions| == |findings| && forall i :: 0 <= i < |findings| ==> decisions[i].status == findings[i].status
  }

  /**
   * The two roll-ups, of findings and of the decisions copied from them, agree exactly when some finding is not green
   * or a required finding exists. Where they differ, the findings say amber and the decisions say green.
   */
  lemma RollUpsAgreeIff(
    tx: Texts, claims: seq<Claim>, results: seq<Result>, required: set<string>, orders: seq<seq<string>>,
    missing: seq<string>, findings: seq<Finding>, decisions: seq<Decision>)
    requires Built(tx, claims, results, required, orders, missing, findings) && Copied(findings, decisions)
    ensures Outcome(findings, required) == Verdict(decisions, false) <==>
            !AllGreen(findings) || SomeRequired(findings, required)
    ensures Outcome(findings, required) != Verdict(decisions, false) ==>
              Outcome(findings, required) == Amber && Verdict(decisions, false) == Green
  {
    OutcomeMeans(findings, required);
    CopiedVerdict(findings, decisions);
    if AllGreen(findings) && SomeRequired(findings, required) {
      GreenMeansNoneMissing(tx, claims, results, required, orders, missing, findings);
      var i :| 0 <= i < |findings| && IsRequired(findings[i], required);
      assert FindingOf(tx, claims[i], results, orders[i], findings[i]);
      GreenRestsOnEvidence(tx, claims[i], Choose(tx, orders[i], results));
      assert Backed(findings[i]);
    }
  }

  lemma CopiedVerdict(findings: seq<Finding>, decisions: seq<Decision>)
    requires Copied(findings, decisions)
    ensures Verdict(decisions, false) == Red <==> SomeStatus(findings, Red)
    ensures Verdict(decisions, false) == Green <==> AllGreen(findings)
  {
    if SomeStatus(findings, Red) {
      var i :| 0 <= i < |findings| && findings[i].status == Red;
      assert decisions[i].status == Red;
    }
    if !AllGreen(findings) {
      var i :| 0 <= i < |findings| && findings[i].status != Green;
      assert decisions[i].status == Red || decisions[i].status == Amber;
    }
  }

  // ---- The verdict of the workflow graph ------------------------------------------------------

  function AnswerOf(s: VerifierStatus): Answer {
    match s
    case Confirmed => Verified
    case Contradicted => Mismatch
    case TimedOut => Timeout
    case Failed => Error
    case NotRun => Skipped
    case NotRelevant => NotApplicable
  }

  /** What the graph makes of a verifier's answer: without audit status, colour or task status. */
  function CanonicalResult(v: Verifier, codes: seq<Code>, recommended: bool): Result {
    TrustFindings.Result(v.taskId, v.fieldId, "", v.fieldId, NoAudit, NoColor, OtherTask, AnswerOf(v.status),
                         Keys("", "", "", v.connectorId, "", ""), Labels("", "", "", ""),
                         Value(v.confidence), Value(v.confidence), codes, codes, recommended)
  }

  datatype Field = Field(id: string, mandatory: bool, blank: bool, ai: real, display: Display)

  /** The claim the graph makes of a field. */
  function FieldClaim(f: Field): Claim {
    TrustFindings.Claim(f.id, f.id, f.id, f.mandatory, Some(!f.blank), Some(f.ai), [], f.display)
  }

  /**
   * The graph's verdict on a safe document is green exactly when every field's finding rests on verifier evidence, no
   * required id is missing, and an empty document comes without a schema warning: with at least one field, green is
   * never reached without evidence, with none it is. In a green document each field rests on evidence about itself
   * exactly when each has a result that concerns it.
   */
  lemma GraphGreenIff(
    tx: Texts, claims: seq<Claim>, results: seq<Result>, required: set<string>, orders: seq<seq<string>>,
    missing: seq<string>, findings: seq<Finding>, decisions: seq<Decision>, schemaWarned: bool)
    requires Built(tx, claims, results, required, orders, missing, findings) && Copied(findings, decisions)
    ensures PolicyVerdict(decisions, false, schemaWarned) == Green <==>
            && (forall i :: 0 <= i < |claims| ==> RestsOnEvidence(claims[i], Choose(tx, orders[i], results)))
            && required <= Present(findings[..|claims|])
            && (schemaWarned ==> claims != [])
    ensures PolicyVerdict(decisions, false, schemaWarned) == Green ==>
              ((forall i :: 0 <= i < |claims| ==> GreenOnOwnEvidence(tx, claims[i], Choose(tx, orders[i], results)))
               <==> forall i :: 0 <= i < |claims| ==> HasOwnResult(tx, claims[i], results))
  {
    CopiedVerdict(findings, decisions);
    GreenMeansNoneMissing(tx, claims, results, required, orders, missing, findings);
    forall i | 0 <= i < |claims|
      ensures findings[i].status == Green <==> RestsOnEvidence(claims[i], Choose(tx, orders[i], results))
    {
      assert FindingOf(tx, claims[i], results, orders[i], findings[i]);
      GreenRestsOnEvidence(tx, claims[i], Choose(tx, orders[i], results));
    }
    if PolicyVerdict(decisions, false, schemaWarned) == Green {
      AllOwnEvidenceIff(tx, claims, results, orders, missing, findings);
    }
  }

  // ---- Which of a field's verifiers decides ---------------------------------------------------

  /** The verifier's answer is about this field. */
  predicate Speaks(tx: Texts, v: Verifier, f: Field) {
    tx.strip(f.id) != "" && tx.strip(v.fieldId) == tx.strip(f.id)
  }

  function CanonicalResults(verifiers: seq<Verifier>, codes: Verifier -> seq<Code>, recommended: Verifier -> bool)
    : (results: seq<Result>)
    ensures |results| == |verifiers|
    ensures forall i :: 0 <= i < |results| ==>
                          results[i] == CanonicalResult(verifiers[i], codes(verifiers[i]), recommended(verifiers[i]))
  {
    seq(|verifiers|, i requires 0 <= i < |verifiers| =>
                       CanonicalResult(verifiers[i], codes(verifiers[i]), recommended(verifiers[i])))
  }

  /** The verifiers that speak about a field, in order. */
  function Speakers(tx: Texts, verifiers: seq<Verifier>, f: Field): (own: seq<Verifier>)
    ensures forall v :: v in own <==> v in verifiers && Speaks(tx, v, f)
  {
    if verifiers == [] then []
    else
      var n := |verifiers| - 1;
      assert verifiers == verifiers[..n] + [verifiers[n]];
      Speakers(tx, verifiers[..n], f) + (if Speaks(tx, verifiers[n], f) then [verifiers[n]] else [])
  }

  function Twice(s: seq<Result>): seq<Result> {
    if s == [] then [] else Twice(s[..|s| - 1]) + [s[|s| - 1], s[|s| - 1]]
  }

  lemma TwiceNext(s: seq<Result>, x: Result)
    ensures Twice(s + [x]) == Twice(s) + [x] + [x] == Twice(s) + ([x] + [x])
  {
    assert (s + [x])[..|s|] == s;
    assert Twice(s) + [x, x] == Twice(s) + [x] + [x] == Twice(s) + ([x] + [x]);
  }

  /** A second copy right behind the first changes nothing about which result is on top. */
  lemma TopTwiceNext(s: seq<Result>, x: Result)
    requires s != []
    ensures Top(s + [x] + [x]) == Top(s + [x])
  {
    TopNext(s, x);
    TopNext(s + [x], x);
  }

  lemma {:induction false} TopOfTwice(s: seq<Result>)
    requires s != []
    ensures Twice(s) != [] && Top(Twice(s)) == Top(s)
  {
    var init, x := s[..|s| - 1], s[|s| - 1];
    assert s == init + [x];
    TwiceNext(init, x);
    if init == [] {
      assert s == [x] && Twice(s) == [x] + [x];
      TopNext([x], x);
    } else {
      TopOfTwice(init);
      TopTwiceNext(Twice(init), x);
      TopNext(Twice(init), x);
      TopNext(init, x);
    }
  }

  lemma TopNext(s: seq<Result>, x: Result)
    requires s != []
    ensures Top(s + [x]) == if Below(Top(s), x) then x else Top(s)
  {
    assert (s + [x])[..|s|] == s;
  }

  lemma CanonicalNext(own: seq<Verifier>, v: Verifier, codes: Verifier -> seq<Code>, recommended: Verifier -> bool)
    ensures CanonicalResults(own + [v], codes, recommended) ==
            CanonicalResults(own, codes, recommended) + [CanonicalResult(v, codes(v), recommended(v))]
  {
  }

  lemma CanonicalCopies(tx: Texts, v: Verifier, codes: seq<Code>, recommended: bool, f: Field)
    requires StripLaw(tx) && tx.strip(f.id) != ""
    ensures var r := CanonicalResult(v, codes, recommended);
            Copies(tx, r, tx.strip(f.id)) == if Speaks(tx, v, f) then [r] + [r] else []
  {
  }

  lemma FiledNext(tx: Texts, results: seq<Result>, r: Result, key: string)
    ensures Filed(tx, results + [r], key) == Filed(tx, results, key) + Copies(tx, r, key)
  {
    assert (results + [r])[..|results|] == results;
  }

  lemma SpeakersNext(tx: Texts, verifiers: seq<Verifier>, v: Verifier, f: Field)
    ensures Speakers(tx, verifiers + [v], f) == Speakers(tx, verifiers, f) + (if Speaks(tx, v, f) then [v] else [])
  {
    assert (verifiers + [v])[..|verifiers|] == verifiers;
  }

  /** The results filed under a field's id are those of its speakers, each under two of its identifiers. */
  lemma {:induction false} FiledTwice(
    tx: Texts, verifiers: seq<Verifier>, codes: Verifier -> seq<Code>, recommended: Verifier -> bool, f: Field)
    requires StripLaw(tx) && tx.strip(f.id) != ""
    ensures Filed(tx, CanonicalResults(verifiers, codes, recommended), tx.strip(f.id)) ==
            Twice(CanonicalResults(Speakers(tx, verifiers, f), codes, recommended))
  {
    if verifiers != [] {
      var init, v := verifiers[..|verifiers| - 1], verifiers[|verifiers| - 1];
      assert verifiers == init + [v];
      FiledTwice(tx, init, codes, recommended, f);
      FiledTwiceNext(tx, init, v, codes, recommended, f);
    }
  }

  lemma FiledTwiceNext(
    tx: Texts, init: seq<Verifier>, v: Verifier, codes: Verifier -> seq<Code>, recommended: Verifier -> bool, f: Field)
    requires StripLaw(tx) && tx.strip(f.id) != ""
    requires Filed(tx, CanonicalResults(init, codes, recommended), tx.strip(f.id)) ==
             Twice(CanonicalResults(Speakers(tx, init, f), codes, recommended))
    ensures Filed(tx, CanonicalResults(init + [v], codes, recommended), tx.strip(f.id)) ==
            Twice(CanonicalResults(Speakers(tx, init + [v], f), codes, recommended))
  {
    var own, r := Speakers(tx, init, f), CanonicalResult(v, codes(v), recommended(v));
    CanonicalNext(init, v, codes, recommended);
    FiledNext(tx, CanonicalResults(init, codes, recommended), r, tx.strip(f.id));
    CanonicalCopies(tx, v, codes(v), recommended(v), f);
    SpeakersNext(tx, init, v, f);
    if Speaks(tx, v, f) {
      CanonicalNext(own, v, codes, recommended);
      TwiceNext(CanonicalResults(own, codes, recommended), r);
    } else {
      assert own + [] == own;
    }
  }

  /** The chosen result of a field with speakers is the top one of theirs. */
  lemma FieldChoosesTop(
    tx: Texts, verifiers: seq<Verifier>, codes: Verifier -> seq<Code>, recommended: Verifier -> bool, f: Field,
    order: seq<string>)
    requires StripLaw(tx) && Speakers(tx, verifiers, f) != [] && IsOrder(FieldClaim(f), order)
    ensures Choose(tx, order, CanonicalResults(verifiers, codes, recommended)) ==
            Some(Top(CanonicalResults(Speakers(tx, verifiers, f), codes, recommended)))
  {
    var results, own := CanonicalResults(verifiers, codes, recommended), Speakers(tx, verifiers, f);
    assert own[0] in own;
    OneIdentifier(f, order);
    FiledTwice(tx, verifiers, codes, recommended, f);
    TopOfTwice(CanonicalResults(own, codes, recommended));
    OwnNext(tx, [], f.id, results);
    assert [] + [f.id] == [f.id];
    assert Own(tx, order, results) == Twice(CanonicalResults(own, codes, recommended));
  }

  lemma OneIdentifier(f: Field, order: seq<string>)
    requires IsOrder(FieldClaim(f), order)
    ensures order == [f.id]
  {
    forall key
      ensures multiset(order)[key] == multiset{f.id}[key]
    {
      DistinctBag(order, key);
    }
    assert multiset(order) == multiset{f.id};
    assert |order| == |multiset(order)| == 1 && order[0] in order;
  }

  /** No speaker is more confident than the i-th, and none before it as confident. */
  predicate Leads(own: seq<Verifier>, i: nat) {
    && i < |own|
    && forall j :: 0 <= j < |own| ==>
                     && Clamp(own[j].confidence) <= Clamp(own[i].confidence)
                     && (j < i ==> Clamp(own[j].confidence) < Clamp(own[i].confidence))
  }

  /** All the graph's results rank alike: only their confidence counts. */
  lemma CanonicalBelow(v: Verifier, w: Verifier, codes: Verifier -> seq<Code>, recommended: Verifier -> bool)
    ensures Below(CanonicalResult(v, codes(v), recommended(v)), CanonicalResult(w, codes(w), recommended(w))) <==>
            Clamp(v.confidence) < Clamp(w.confidence)
  {
  }

  /** Who leads once `w` is appended, if the i-th leads before. */
  function NextLeader(init: seq<Verifier>, i: nat, w: Verifier): nat
    requires i < |init|
  {
    if Clamp(init[i].confidence) < Clamp(w.confidence) then |init| else i
  }

  lemma LeadsNext(init: seq<Verifier>, i: nat, w: Verifier)
    requires Leads(init, i)
    ensures Leads(init + [w], NextLeader(init, i, w))
  {
  }

  lemma TopNextLeader(
    init: seq<Verifier>, i: nat, w: Verifier, codes: Verifier -> seq<Code>, recommended: Verifier -> bool)
    requires i < |init|
    requires Top(CanonicalResults(init, codes, recommended)) == CanonicalResults(init, codes, recommended)[i]
    ensures Top(CanonicalResults(init + [w], codes, recommended)) ==
            CanonicalResults(init + [w], codes, recommended)[NextLeader(init, i, w)]
  {
    CanonicalNext(init, w, codes, recommended);
    TopNext(CanonicalResults(init, codes, recommended), CanonicalResult(w, codes(w), recommended(w)));
    CanonicalBelow(init[i], w, codes, recommended);
  }

  lemma {:induction false} TopLeads(own: seq<Verifier>, codes: Verifier -> seq<Code>, recommended: Verifier -> bool)
    returns (i: nat)
    requires own != []
    ensures Leads(own, i)
    ensures Top(CanonicalResults(own, codes, recommended)) == CanonicalResults(own, codes, recommended)[i]
  {
    var init, w := own[..|own| - 1], own[|own| - 1];
    assert own == init + [w];
    if init == [] {
      i := 0;
    } else {
      var j := TopLeads(init, codes, recommended);
      LeadsNext(init, j, w);
      TopNextLeader(init, j, w, codes, recommended);
      i := NextLeader(init, j, w);
    }
  }

  lemma LeadIsUnique(own: seq<Verifier>, i: nat, j: nat)
    requires Leads(own, i) && Leads(own, j)
    ensures i == j
  {
    assert Clamp(own[i].confidence) == Clamp(own[j].confidence);
  }

  /** The first of the most confident speakers contradicts the field. */
  ghost predicate LedByMismatch(own: seq<Verifier>) {
    exists i: nat :: Leads(own, i) && own[i].status == Contradicted
  }

  lemma RedIff(tx: Texts, v: Verifier, codes: seq<Code>, recommended: bool, f: Field)
    ensures BuildClaimFinding(tx, FieldClaim(f), Some(CanonicalResult(v, codes, recommended))).status == Red <==>
            v.status == Contradicted && !(f.mandatory && f.blank)
  {
  }

  /** The verifiers a field is judged by: those that speak about it, or all of them if none does. */
  function Judges(tx: Texts, verifiers: seq<Verifier>, f: Field): seq<Verifier> {
    if Speakers(tx, verifiers, f) != [] then Speakers(tx, verifiers, f) else verifiers
  }

  lemma FieldIsJudgedByTop(
    tx: Texts, verifiers: seq<Verifier>, codes: Verifier -> seq<Code>, recommended: Verifier -> bool, f: Field,
    order: seq<string>)
    requires StripLaw(tx) && IsOrder(FieldClaim(f), order) && verifiers != []
    ensures Judges(tx, verifiers, f) != []
    ensures Choose(tx, order, CanonicalResults(verifiers, codes, recommended)) ==
            Some(Top(CanonicalResults(Judges(tx, verifiers, f), codes, recommended)))
  {
    if Speakers(tx, verifiers, f) != [] {
      FieldChoosesTop(tx, verifiers, codes, recommended, f, order);
    } else {
      var results := CanonicalResults(verifiers, codes, recommended);
      forall r | r in results
        ensures !Concerns(tx, FieldClaim(f), r)
      {
        var i :| 0 <= i < |results| && results[i] == r;
        ConcernsIff(tx, verifiers[i], codes(verifiers[i]), recommended(verifiers[i]), f);
        assert verifiers[i] in verifiers;
      }
      ChosenConcernsIff(tx, FieldClaim(f), order, results);
    }
  }

  /**
   * Exactly which mismatches count on the graph's path: a field is red exactly if it is not a mandatory one without a
   * value and the first of the most confident verifiers that speak about it contradicts it; where none speaks about it,
   * the first of the most confident of all. Every other mismatch is outvoted.
   */
  lemma GraphFieldIsRedIff(
    tx: Texts, verifiers: seq<Verifier>, codes: Verifier -> seq<Code>, recommended: Verifier -> bool, f: Field,
    order: seq<string>)
    requires StripLaw(tx) && IsOrder(FieldClaim(f), order)
    ensures BuildClaimFinding(tx, FieldClaim(f),
                              Choose(tx, order, CanonicalResults(verifiers, codes, recommended))).status == Red <==>
            LedByMismatch(Judges(tx, verifiers, f)) && !(f.mandatory && f.blank)
  {
    if verifiers == [] {
      NothingChosen(tx, order);
    } else {
      var judges := Judges(tx, verifiers, f);
      FieldIsJudgedByTop(tx, verifiers, codes, recommended, f, order);
      var i := TopLeads(judges, codes, recommended);
      RedIff(tx, judges[i], codes(judges[i]), recommended(judges[i]), f);
      if j: nat :| Leads(judges, j) && judges[j].status == Contradicted {
        LeadIsUnique(judges, i, j);
      }
    }
  }

  lemma {:induction false} NothingChosen(tx: Texts, order: seq<string>)
    ensures Own(tx, order, []) == [] && Choose(tx, order, []).None?
  {
    if order != [] {
      NothingChosen(tx, order[..|order| - 1]);
    }
  }

  /** In particular every mismatch short of full confidence is outvoted by some confirmation of the same field. */
  lemma GraphMismatchIsOutvoted(
    tx: Texts, m: Verifier, codes: Verifier -> seq<Code>, recommended: Verifier -> bool, f: Field, order: seq<string>)
    requires StripLaw(tx) && m.status == Contradicted && m.confidence < 1.0 && Speaks(tx, m, f)
    requires IsOrder(FieldClaim(f), order) && !(f.mandatory && f.blank)
    ensures exists v: Verifier ::
              && Speaks(tx, v, f) && v.status == Confirmed
              && BuildClaimFinding(tx, FieldClaim(f),
                                   Choose(tx, order, CanonicalResults([m, v], codes, recommended))).status == Green
  {
    var v := Verifier("task", m.fieldId, "connector", Confirmed, 1.0, [], false);
    TwoSpeakers(tx, m, v, f);
    FieldChoosesTop(tx, [m, v], codes, recommended, f, order);
    var i := TopLeads([m, v], codes, recommended);
    assert i == 1;
    ConfirmedIsGreen(tx, v, codes(v), recommended(v), f);
  }

  lemma TwoSpeakers(tx: Texts, m: Verifier, v: Verifier, f: Field)
    requires Speaks(tx, m, f) && Speaks(tx, v, f)
    ensures Speakers(tx, [m, v], f) == [m, v]
  {
    SpeakersNext(tx, [], m, f);
    SpeakersNext(tx, [m], v, f);
    assert [] + [m] == [m] && [m] + [v] == [m, v];
  }

  lemma ConfirmedIsGreen(tx: Texts, v: Verifier, codes: seq<Code>, recommended: bool, f: Field)
    requires !(f.mandatory && f.blank) && Vouches(v)
    ensures BuildClaimFinding(tx, FieldClaim(f), Some(CanonicalResult(v, codes, recommended))).status == Green
  {
    GreenRestsOnEvidence(tx, FieldClaim(f), Some(CanonicalResult(v, codes, recommended)));
  }

  lemma ConcernsIff(tx: Texts, v: Verifier, codes: seq<Code>, recommended: bool, f: Field)
    requires StripLaw(tx)
    ensures Concerns(tx, FieldClaim(f), CanonicalResult(v, codes, recommended)) <==> Speaks(tx, v, f)
  {
  }

  /** A field that no verifier result concerns is green on the evidence found for another field. */
  lemma BorrowedEvidenceIsGreen(
    tx: Texts, v: Verifier, codes: seq<Code>, recommended: bool, f: Field, order: seq<string>)
    requires StripLaw(tx) && Vouches(v) && tx.strip(f.id) != tx.strip(v.fieldId)
    requires IsOrder(FieldClaim(f), order) && !(f.mandatory && f.blank)
    ensures var chosen := Choose(tx, order, [CanonicalResult(v, codes, recommended)]);
            && BuildClaimFinding(tx, FieldClaim(f), chosen).status == Green
            && !GreenOnOwnEvidence(tx, FieldClaim(f), chosen)
  {
    var result := CanonicalResult(v, codes, recommended);
    ConcernsIff(tx, v, codes, recommended, f);
    ChosenConcernsIff(tx, FieldClaim(f), order, [result]);
    ConfirmedIsGreen(tx, v, codes, recommended, f);
  }

  // ---- From fields to the verdict -------------------------------------------------------------

  function FieldDecisions(text: Code -> string, findings: seq<Finding>): (decisions: seq<Decision>)
    ensures Copied(findings, decisions)
  {
    seq(|findings|, i requires 0 <= i < |findings| =>
                      Decision(findings[i].status, findings[i].confidence.final, CodeTexts(text, findings[i].codes)))
  }

  function CodeTexts(text: Code -> string, codes: seq<Code>): seq<string> {
    seq(|codes|, i requires 0 <= i < |codes| => text(codes[i]))
  }

  function FieldClaims(fields: seq<Field>): (claims: seq<Claim>)
    ensures |claims| == |fields| && forall i :: 0 <= i < |claims| ==> claims[i] == FieldClaim(fields[i])
  {
    seq(|fields|, i requires 0 <= i < |fields| => FieldClaim(fields[i]))
  }

  /** A verifier confirmed something, and says in which task and through which connector. */
  predicate Vouches(v: Verifier) {
    v.status == Confirmed && v.taskId != "" && v.connectorId != ""
  }

  /** Some verifier speaks about the field. */
  ghost predicate Heard(tx: Texts, verifiers: seq<Verifier>, f: Field) {
    exists i :: 0 <= i < |verifiers| && Speaks(tx, verifiers[i], f)
  }

  /** Some verifier that speaks about the field vouches for it. */
  ghost predicate VouchedFor(tx: Texts, verifiers: seq<Verifier>, f: Field) {
    exists i :: 0 <= i < |verifiers| && Speaks(tx, verifiers[i], f) && Vouches(verifiers[i])
  }

  lemma RestingVouches(v: Verifier, codes: seq<Code>, recommended: bool, f: Field)
    requires RestsOnEvidence(FieldClaim(f), Some(CanonicalResult(v, codes, recommended)))
    ensures Vouches(v)
  {
  }

  /** What a green field rests on is some verifier that vouches, and one about the field itself if any speaks of it. */
  lemma EvidenceVouches(
    tx: Texts, f: Field, order: seq<string>, verifiers: seq<Verifier>, codes: Verifier -> seq<Code>,
    recommended: Verifier -> bool)
    requires StripLaw(tx) && IsOrder(FieldClaim(f), order)
    requires RestsOnEvidence(FieldClaim(f), Choose(tx, order, CanonicalResults(verifiers, codes, recommended)))
    ensures exists i :: 0 <= i < |verifiers| && Vouches(verifiers[i])
    ensures Heard(tx, verifiers, f) <==> VouchedFor(tx, verifiers, f)
  {
    var results := CanonicalResults(verifiers, codes, recommended);
    var r := Choose(tx, order, results).value;
    ChosenIsAResult(tx, order, results);
    ChosenConcernsIff(tx, FieldClaim(f), order, results);
    var i :| 0 <= i < |results| && results[i] == r;
    RestingVouches(verifiers[i], codes(verifiers[i]), recommended(verifiers[i]), f);
    if j :| 0 <= j < |verifiers| && Speaks(tx, verifiers[j], f) {
      ConcernsIff(tx, verifiers[j], codes(verifiers[j]), recommended(verifiers[j]), f);
      ConcernsIff(tx, verifiers[i], codes(verifiers[i]), recommended(verifiers[i]), f);
      assert results[j] in results && Concerns(tx, FieldClaim(f), results[j]);
    }
  }

  /**
   * From normalised fields and verifier results to the verdict: confidence fusion followed by the policy step. In a
   * green document every field is vouched for by a verifier of its own exactly when every field has one that speaks
   * about it.
   */
  method JudgeSafeDocument(
    tx: Texts, text: Code -> string, fields: seq<Field>, verifiers: seq<Verifier>, codes: Verifier -> seq<Code>,
    recommended: Verifier -> bool, schemaWarned: bool, documentCodes: seq<string>)
    returns (outcome: Status, decisions: seq<Decision>)
    requires StripLaw(tx)
    ensures outcome == PolicyVerdict(decisions, false, schemaWarned)
    ensures outcome == Green && fields != [] ==> exists i :: 0 <= i < |verifiers| && Vouches(verifiers[i])
    ensures outcome == Green ==>
              forall i :: 0 <= i < |fields| ==>
                            && !(fields[i].mandatory && fields[i].blank)
                            && (Heard(tx, verifiers, fields[i]) <==> VouchedFor(tx, verifiers, fields[i]))
    ensures fields == [] ==> (outcome == Green <==> !schemaWarned)
  {
    var claims, results := FieldClaims(fields), CanonicalResults(verifiers, codes, recommended);
    var asked := set i | 0 <= i < |fields| && fields[i].mandatory :: fields[i].id;
    var trust, missing; ghost var orders;
    trust, missing, orders := BuildTrustFindings(tx, claims, results, asked);
    decisions := FieldDecisions(text, trust.findings);
    GraphGreenIff(tx, claims, results, RequiredIds(tx, claims, asked), orders, missing, trust.findings, decisions,
                  schemaWarned);
    var reasons;
    if schemaWarned && decisions == [] {
      outcome := Amber;
    } else {
      outcome, reasons := BuildFinalVerdict(decisions, false, documentCodes);
    }
    if outcome == Green {
      forall i | 0 <= i < |fields|
        ensures !(fields[i].mandatory && fields[i].blank)
        ensures exists k :: 0 <= k < |verifiers| && Vouches(verifiers[k])
        ensures Heard(tx, verifiers, fields[i]) <==> VouchedFor(tx, verifiers, fields[i])
      {
        assert FindingOf(tx, claims[i], results, orders[i], trust.findings[i]);
        EvidenceVouches(tx, fields[i], orders[i], verifiers, codes, recommended);
      }
      if fields != [] {
        EvidenceVouches(tx, fields[0], orders[0], verifiers, codes, recommended);
      }
    }
  }
}
