/** Per-claim findings and the document outcome (backend/app/trust/findings.py). */
module TrustFindings {
  import opened Prelude
  import opened Ordering

  datatype Status = Green | Amber | Red

  datatype Audit = AuditMismatch | AuditVerified | AuditPartial | AuditUnverified | AuditManualReview
    | AuditNotApplicable | NoAudit | OtherAudit

  datatype Color = ColorRed | ColorGreen | NoColor | OtherColor

  datatype TaskState = TaskManualReview | TaskSkipped | TaskFailed | TaskError | TaskTimeout | OtherTask

  datatype Answer = Mismatch | Mismatched | Verified | Matched | Skipped | NotApplicable | Error | Timeout
    | Unavailable | NoAnswer | OtherAnswer

  /** Normalised reason codes; the ones no rule mentions are `Other`. */
  datatype Code = AiOnlyEvidence | AllProvidersFailed | LowConfidenceReviewRequired | LowConfidence
    | ManualReviewProviderSelected | ManualReviewRequired | MissingCredentialReference | NoExecutableProvider
    | NoProviderAvailable | NoTaskResult | NoVerifierEvidence | ProviderCapabilityMismatch | ProviderResultMalformed
    | ProviderNotRegistered | ProviderUnavailable | RequiredClaimMissing | UnavailableVerifier | VerifierNotRegistered
    | VerifierMismatch | VerifierEvidenceMatched | AllRequiredChecksMatched | Other(text: string)

  /** A number entry, which may be absent or null. */
  datatype Number = Absent | Null | Value(value: real) {
    function Score(): real {
      if Value? then value else 0.0
    }
  }

  /** A claim; `""` and `None` stand for absent entries. */
  datatype Claim = Claim(
    claimId: string, credentialId: string, fieldId: string,
    requiresVerification: bool, extracted: Option<bool>, ai: Option<real>, codes: seq<Code>, display: Display)

  /** What a claim says about how it is shown: its labels, its type and its boxes. */
  datatype Display = Display(title: string, canonical: string, claimType: string, boxes: seq<string>)

  datatype Keys = Keys(
    executed: string, planned: string, preferred: string, connector: string, provider: string, verifier: string)

  datatype Labels = Labels(executed: string, planned: string, preferred: string, verifier: string)

  /** A task result: its reason codes normalised (`codes`) and merely upper-cased (`rawCodes`). */
  datatype Result = Result(
    taskId: string, credentialId: string, claimId: string, fieldId: string,
    audit: Audit, color: Color, task: TaskState, answer: Answer, keys: Keys, labels: Labels,
    confidence: Number, verificationConfidence: Number,
    codes: seq<Code>, rawCodes: seq<Code>, recommended: bool)

  datatype Confidence = Confidence(ai: real, verifier: real, final: real)

  datatype Explanation = EvidenceMatched | EvidenceContradicted | LacksEvidence | EvidenceUnavailable | RequiredMissing

  /** How a finding is shown. */
  datatype Shown = Shown(id: string, title: string, claimType: string, providerLabel: string, boxes: seq<string>)

  datatype Finding = Finding(
    claimId: string, credentialId: string, fieldId: string, status: Status, confidence: Confidence,
    codes: seq<Code>, providerId: string, refs: seq<string>, manualReview: bool, explanation: Explanation, shown: Shown)

  /** Library functions: trimming white space, the identifier and title of a missing claim's id, and box cleaning. */
  datatype Texts = Texts(
    strip: string -> string, identifier: string -> string, title: string -> string,
    boxes: seq<string> -> seq<string>)

  ghost predicate StripLaw(tx: Texts) {
    tx.strip("") == ""
  }

  function Clamp(x: real): real {
    if x < 0.0 then 0.0 else if x > 1.0 then 1.0 else x
  }

  function First(a: string, b: string): string {
    if a != "" then a else b
  }

  // ---- Choosing the result of a claim ---------------------------------------------------------

  predicate Explicit(r: Result) {
    r.audit == AuditMismatch || r.color == ColorRed
  }

  function Rank(r: Result): int {
    if Explicit(r) then 4
    else if r.audit == AuditVerified && r.color == ColorGreen then 3
    else if r.audit == AuditPartial || r.audit == AuditUnverified then 2
    else 1
  }

  predicate Below(a: Result, b: Result) {
    Rank(a) < Rank(b) || (Rank(a) == Rank(b) && Clamp(a.confidence.Score()) < Clamp(b.confidence.Score()))
  }

  /** max(candidates, key=_result_priority): a candidate no other is above, and none before it as high. */
  function Top(candidates: seq<Result>): (top: Result)
    requires candidates != []
    ensures top in candidates && forall r :: r in candidates ==> !Below(top, r)
  {
    var n := |candidates| - 1;
    if n == 0 then candidates[0]
    else
      assert candidates == candidates[..n] + [candidates[n]];
      var top := Top(candidates[..n]);
      if Below(top, candidates[n]) then candidates[n] else top
  }

  predicate FiledUnder(tx: Texts, r: Result, key: string) {
    key != "" && (tx.strip(r.credentialId) == key || tx.strip(r.claimId) == key || tx.strip(r.fieldId) == key)
  }

  /** One copy of the result for each of its identifiers equal to the key. */
  function Copies(tx: Texts, r: Result, key: string): seq<Result> {
    if key == "" then []
    else
      (if tx.strip(r.credentialId) == key then [r] else []) + (if tx.strip(r.claimId) == key then [r] else [])
      + (if tx.strip(r.fieldId) == key then [r] else [])
  }

  function Filed(tx: Texts, results: seq<Result>, key: string): seq<Result> {
    if results == [] then []
    else Filed(tx, results[..|results| - 1], key) + Copies(tx, results[|results| - 1], key)
  }

  function Append(m: map<string, seq<Result>>, key: string, r: Result): map<string, seq<Result>> {
    if key == "" then m else m[key := At(m, key) + [r]]
  }

  lemma AppendAt(m: map<string, seq<Result>>, k: string, r: Result, key: string)
    ensures At(Append(m, k, r), key) == At(m, key) + (if k != "" && k == key then [r] else [])
  {
  }

  function File(tx: Texts, m: map<string, seq<Result>>, r: Result): map<string, seq<Result>> {
    Append(Append(Append(m, tx.strip(r.credentialId), r), tx.strip(r.claimId), r), tx.strip(r.fieldId), r)
  }

  lemma FileAt(tx: Texts, m: map<string, seq<Result>>, r: Result, key: string)
    ensures At(File(tx, m, r), key) == At(m, key) + Copies(tx, r, key)
  {
    var a := Append(m, tx.strip(r.credentialId), r);
    AppendAt(m, tx.strip(r.credentialId), r, key);
    AppendAt(a, tx.strip(r.claimId), r, key);
    AppendAt(Append(a, tx.strip(r.claimId), r), tx.strip(r.fieldId), r, key);
  }

  method IndexResults(tx: Texts, results: seq<Result>) returns (index: map<string, seq<Result>>)
    ensures forall key :: At(index, key) == Filed(tx, results, key)
  {
    index := map[];
    for i := 0 to |results|
      invariant forall key :: At(index, key) == Filed(tx, results[..i], key)
    {
      index := FileNext(tx, results, i, index);
    }
    assert results[..|results|] == results;
  }

  /** One turn of the indexing loop: the result is filed under each of its identifiers. */
  method FileNext(tx: Texts, results: seq<Result>, i: nat, index: map<string, seq<Result>>)
    returns (longer: map<string, seq<Result>>)
    requires i < |results| && forall key :: At(index, key) == Filed(tx, results[..i], key)
    ensures forall key :: At(longer, key) == Filed(tx, results[..i + 1], key)
  {
    longer := File(tx, index, results[i]);
    assert results[..i + 1][..i] == results[..i];
    forall key
      ensures At(longer, key) == Filed(tx, results[..i + 1], key)
    {
      FileAt(tx, index, results[i], key);
    }
  }

  /** The identifiers of a claim, taken in the order `order` in which the set of them is visited. */
  ghost predicate IsOrder(c: Claim, order: seq<string>) {
    && Distinct(order)
    && (forall key :: key in order <==> key in {c.credentialId, c.claimId, c.fieldId})
  }

  function Own(tx: Texts, order: seq<string>, results: seq<Result>): seq<Result> {
    if order == [] then []
    else
      var key := tx.strip(order[|order| - 1]);
      Own(tx, order[..|order| - 1], results) + (if key == "" then [] else Filed(tx, results, key))
  }

  /** A claim's own results, or all results when it has none. */
  function Candidates(tx: Texts, order: seq<string>, results: seq<Result>): seq<Result> {
    if Own(tx, order, results) != [] then Own(tx, order, results) else results
  }

  function Choose(tx: Texts, order: seq<string>, results: seq<Result>): Option<Result> {
    var candidates := Candidates(tx, order, results);
    if candidates == [] then None else Some(Top(candidates))
  }

  lemma OwnNext(tx: Texts, order: seq<string>, key: string, results: seq<Result>)
    ensures Own(tx, order + [key], results) ==
            Own(tx, order, results) + (if tx.strip(key) == "" then [] else Filed(tx, results, tx.strip(key)))
  {
    assert (order + [key])[..|order|] == order;
  }

  /** `order` lists those identifiers of the claim that are no longer among `keys`. */
  ghost predicate Visited(c: Claim, order: seq<string>, keys: set<string>) {
    && Distinct(order) && (forall key :: key in order ==> key !in keys)
    && (forall key :: key in order || key in keys <==> key in {c.credentialId, c.claimId, c.fieldId})
  }

  lemma VisitedNext(c: Claim, order: seq<string>, keys: set<string>, key: string)
    requires Visited(c, order, keys) && key in keys
    ensures Visited(c, order + [key], keys - {key})
  {
    forall k
      ensures k in order + [key] <==> k in order || k == key
    {
    }
  }

  /** The loop over the set of a claim's identifiers. */
  method CollectOwn(tx: Texts, c: Claim, index: map<string, seq<Result>>, ghost results: seq<Result>)
    returns (candidates: seq<Result>, ghost order: seq<string>)
    requires forall key :: At(index, key) == Filed(tx, results, key)
    ensures IsOrder(c, order) && candidates == Own(tx, order, results)
  {
    order, candidates := [], [];
    var keys := {c.credentialId, c.claimId, c.fieldId};
    while keys != {}
      invariant Visited(c, order, keys)
      invariant candidates == Own(tx, order, results)
      decreases |keys|
    {
      var key :| key in keys;
      VisitedNext(c, order, keys, key);
      OwnNext(tx, order, key, results);
      keys := keys - {key};
      order := order + [key];
      candidates := candidates + (if tx.strip(key) == "" then [] else At(index, tx.strip(key)));
    }
  }

  method BestResultForClaim(tx: Texts, c: Claim, index: map<string, seq<Result>>, results: seq<Result>)
    returns (best: Option<Result>, ghost order: seq<string>)
    requires forall key :: At(index, key) == Filed(tx, results, key)
    ensures IsOrder(c, order) && best == Choose(tx, order, results)
    ensures exists visited :: IsOrder(c, visited) && best == Choose(tx, visited, results)
  {
    var candidates;
    candidates, order := CollectOwn(tx, c, index, results);
    if candidates == [] {
      candidates := results;
    }
    best := if candidates == [] then None else Some(Top(candidates));
  }

  // ---- The finding of one claim ---------------------------------------------------------------

  predicate HasVerifierEvidence(r: Result) {
    r.taskId != "" && (r.keys.executed != "" || r.keys.planned != "" || r.keys.preferred != "" || r.keys.verifier != ""
                       || r.keys.connector != "" || r.keys.provider != "")
  }

  predicate IsRequiredClaimMissing(c: Claim) {
    c.requiresVerification && c.extracted == Some(false)
  }

  predicate Contradicts(r: Result) {
    r.audit == AuditMismatch || r.color == ColorRed || r.answer == Mismatch || r.answer == Mismatched
  }

  predicate Confirms(r: Result) {
    && (r.audit == AuditVerified || r.answer == Verified || r.answer == Matched)
    && (r.color == NoColor || r.color == ColorGreen || r.answer == Verified || r.answer == Matched)
  }

  predicate NoProviderCode(code: Code) {
    code == NoProviderAvailable || code == NoExecutableProvider || code == ManualReviewRequired
    || code == ManualReviewProviderSelected || code == ProviderNotRegistered || code == VerifierNotRegistered
  }

  function StatusAndReasons(c: Claim, result: Option<Result>): (Status, seq<Code>) {
    if IsRequiredClaimMissing(c) then (Amber, [RequiredClaimMissing, ManualReviewRequired])
    else
      match result
      case None => (Amber, [NoVerifierEvidence, AiOnlyEvidence, LowConfidenceReviewRequired])
      case Some(r) =>
        if Contradicts(r) then (Red, [VerifierMismatch])
        else if Confirms(r) && HasVerifierEvidence(r) then (Green, [VerifierEvidenceMatched])
        else if r.audit == AuditManualReview || r.task == TaskManualReview then (Amber, [ManualReviewRequired])
        else if r.task == TaskSkipped || r.audit == AuditNotApplicable || r.answer == Skipped
                || r.answer == NotApplicable then (Amber, [NoExecutableProvider])
        else if r.task == TaskFailed || r.task == TaskError || r.task == TaskTimeout
                || r.answer == Error || r.answer == Timeout || r.answer == Unavailable then
          if exists k :: 0 <= k < |r.rawCodes| && NoProviderCode(r.rawCodes[k]) then (Amber, r.rawCodes)
          else (Amber, [ProviderUnavailable])
        else (Amber, [NoVerifierEvidence])
  }

  predicate NeedsReview(code: Code) {
    !(code == VerifierMismatch || code == VerifierEvidenceMatched || code == AllRequiredChecksMatched || code.Other?)
  }

  predicate AnyNeedsReview(codes: seq<Code>) {
    exists k :: 0 <= k < |codes| && NeedsReview(codes[k])
  }

  function ProviderOf(tx: Texts, r: Result): string {
    tx.strip(First(r.keys.executed, First(r.keys.planned, First(r.keys.preferred,
             First(r.keys.connector, First(r.keys.provider, r.keys.verifier))))))
  }

  /** The result a finding may rest on: none for a required claim without a value. */
  function Evidence(c: Claim, result: Option<Result>): Option<Result> {
    if IsRequiredClaimMissing(c) then None else result
  }

  function ExplicitCodes(c: Claim, evidence: Option<Result>): seq<Code> {
    Dedupe(c.codes + (if evidence.Some? then evidence.value.codes else []))
  }

  function VerifierConfidence(evidence: Option<Result>): real {
    match evidence
    case None => 0.0
    case Some(r) => Clamp(if r.confidence.Absent? then r.verificationConfidence.Score() else r.confidence.Score())
  }

  function Explain(status: Status, evidence: bool): Explanation {
    match status
    case Green => EvidenceMatched
    case Red => EvidenceContradicted
    case Amber => if evidence then EvidenceUnavailable else LacksEvidence
  }

  function Show(tx: Texts, c: Claim, evidence: Option<Result>, id: string): Shown {
    Shown("finding-" + id,
          First(tx.strip(First(c.display.title, First(c.display.canonical, "Claim"))), "Claim"),
          First(tx.strip(First(c.display.claimType, "generic_claim")), "generic_claim"),
          if evidence.None? then ""
          else
            var l := evidence.value.labels;
            tx.strip(First(l.executed, First(l.planned, First(l.preferred, l.verifier)))),
          tx.boxes(c.display.boxes))
  }

  function BuildClaimFinding(tx: Texts, c: Claim, result: Option<Result>): Finding {
    var claimId := First(c.claimId, First(c.credentialId, c.fieldId));
    var credentialId := First(c.credentialId, claimId);
    var evidence := Evidence(c, result);
    var (status, defaults) := StatusAndReasons(c, evidence);
    var explicit := ExplicitCodes(c, evidence);
    var codes := if evidence.None? then Dedupe(explicit + defaults)
                 else if explicit != [] then explicit else Dedupe(defaults);
    var ai, verifier := Clamp(c.ai.GetOr(0.0)), VerifierConfidence(evidence);
    Finding(First(claimId, credentialId), credentialId, tx.strip(c.fieldId), status,
            Confidence(ai, verifier, if evidence.Some? then verifier else if ai < 0.79 then ai else 0.79),
            codes,
            if evidence.Some? then ProviderOf(tx, evidence.value) else "",
            if evidence.Some? && evidence.value.taskId != "" then [evidence.value.taskId] else [],
            status == Amber && ((evidence.Some? && evidence.value.recommended) || AnyNeedsReview(codes)),
            Explain(status, evidence.Some?), Show(tx, c, evidence, First(claimId, credentialId)))
  }

  function MissingFinding(tx: Texts, id: string): Finding {
    var safe := First(tx.identifier(id), "required-claim");
    Finding(safe, safe, safe, Amber, Confidence(0.0, 0.0, 0.0), [RequiredClaimMissing, ManualReviewRequired],
            "", [], true, RequiredMissing, Shown("finding-" + safe, tx.title(safe), "generic_claim", "", []))
  }

  // ---- The document ---------------------------------------------------------------------------

  function ClaimKey(tx: Texts, c: Claim): string {
    tx.strip(First(c.credentialId, First(c.claimId, c.fieldId)))
  }

  /** The ids asked for, or else those of the claims that need verification. */
  function RequiredIds(tx: Texts, claims: seq<Claim>, asked: set<string>): set<string> {
    if asked != {} then asked
    else set i | 0 <= i < |claims| && claims[i].requiresVerification :: ClaimKey(tx, claims[i])
  }

  function Present(findings: seq<Finding>): set<string> {
    (set i | 0 <= i < |findings| && findings[i].claimId != "" :: findings[i].claimId)
    + (set i | 0 <= i < |findings| && findings[i].credentialId != "" :: findings[i].credentialId)
    + (set i | 0 <= i < |findings| && findings[i].fieldId != "" :: findings[i].fieldId)
  }

  function HasStatus(s: Status): Finding -> bool {
    (f: Finding) => f.status == s
  }

  predicate IsRequired(f: Finding, required: set<string>) {
    f.claimId in required || f.credentialId in required
  }

  predicate Backed(f: Finding) {
    f.status == Green && f.refs != []
  }

  /** The outcome of a document from its findings. */
  function Outcome(findings: seq<Finding>, required: set<string>): Status {
    if CountIf(HasStatus(Red), findings) != 0 then Red
    else if CountIf(HasStatus(Amber), findings) != 0 then Amber
    else if && (exists i :: 0 <= i < |findings| && IsRequired(findings[i], required))
            && (forall i :: 0 <= i < |findings| && IsRequired(findings[i], required) ==> findings[i].status == Green)
            && (exists i :: 0 <= i < |findings| && Backed(findings[i])) then Green
    else Amber
  }

  datatype Risk = High | Medium | Low

  datatype Trust = Trust(
    outcome: Status, findings: seq<Finding>, green: nat, amber: nat, red: nat, backed: bool,
    codes: seq<Code>, connectors: seq<string>, risk: Risk)

  function AllCodes(findings: seq<Finding>): seq<Code> {
    if findings == [] then [] else AllCodes(findings[..|findings| - 1]) + findings[|findings| - 1].codes
  }

  function Providers(findings: seq<Finding>): seq<string> {
    if findings == [] then []
    else
      var id := findings[|findings| - 1].providerId;
      Providers(findings[..|findings| - 1]) + (if id == "" then [] else [id])
  }

  /** The reasons of the verdict: those of the findings, once each, and what the outcome adds. */
  function VerdictCodes(outcome: Status, codes: seq<Code>): seq<Code> {
    match outcome
    case Green => Dedupe(codes + [AllRequiredChecksMatched])
    case Amber => if codes == [] then [NoVerifierEvidence] else codes
    case Red => codes
  }

  function RiskOf(outcome: Status): Risk {
    match outcome
    case Green => Low
    case Amber => Medium
    case Red => High
  }

  function BuildResult(findings: seq<Finding>, required: set<string>): Trust {
    var outcome := Outcome(findings, required);
    Trust(outcome, findings, CountIf(HasStatus(Green), findings),
          CountIf(HasStatus(Amber), findings), CountIf(HasStatus(Red), findings),
          exists i :: 0 <= i < |findings| && Backed(findings[i]),
          VerdictCodes(outcome, Dedupe(AllCodes(findings))), Dedupe(Providers(findings)), RiskOf(outcome))
  }

  /** The finding of a claim from the result chosen when its identifiers are visited in this order. */
  ghost predicate FindingOf(tx: Texts, c: Claim, results: seq<Result>, order: seq<string>, f: Finding) {
    IsOrder(c, order) && f == BuildClaimFinding(tx, c, Choose(tx, order, results))
  }

  /** Findings of the claims, each from the result chosen in some order of its identifiers, and of the missing ids. */
  ghost predicate Assembled(
    tx: Texts, claims: seq<Claim>, results: seq<Result>, orders: seq<seq<string>>, missing: seq<string>,
    findings: seq<Finding>)
  {
    && |orders| == |claims| && |findings| == |claims| + |missing|
    && (forall i :: 0 <= i < |claims| ==>
                      FindingOf(tx, claims[i], results, orders[i], findings[i]))
    && (forall i :: 0 <= i < |missing| ==> findings[|claims| + i] == MissingFinding(tx, missing[i]))
  }

  /** `ids` lists the set in increasing order. */
  ghost predicate Lists(ids: seq<string>, s: set<string>) {
    && (forall i, j :: 0 <= i < j < |ids| ==> TextLeq(ids[i], ids[j]) && ids[i] != ids[j])
    && (forall id :: id in ids <==> id in s)
  }

  /** Findings put together from claims, results and the required ids that no claim bears. */
  ghost predicate Built(
    tx: Texts, claims: seq<Claim>, results: seq<Result>, required: set<string>, orders: seq<seq<string>>,
    missing: seq<string>, findings: seq<Finding>)
  {
    && Assembled(tx, claims, results, orders, missing, findings)
    && Lists(missing, required - Present(findings[..|claims|]))
  }

  lemma TextOrder()
    ensures TotalPreorder(TextLeq)
  {
    forall x, y
      ensures TextLeq(x, y) || TextLeq(y, x)
    {
      TextLeqTotal(x, y);
    }
    forall x, y, z | TextLeq(x, y) && TextLeq(y, z)
      ensures TextLeq(x, z)
    {
      TextLeqTransitive(x, y, z);
    }
  }

  lemma SortedLists(ids: seq<string>, s: set<string>)
    requires Distinct(ids) && forall id :: id in ids <==> id in s
    ensures Lists(Sort(TextLeq, ids), s)
  {
    TextOrder();
    SortSorts(TextLeq, ids);
    SortKeepsDistinct(TextLeq, ids);
  }

  /** sorted(s) */
  method SortedSet(s: set<string>) returns (ids: seq<string>)
    ensures Lists(ids, s)
  {
    ids := [];
    var rest := s;
    while rest != {}
      invariant Distinct(ids)
      invariant rest <= s
      invariant forall id :: id in ids <==> id in s && id !in rest
      decreases |rest|
    {
      var id :| id in rest;
      rest := rest - {id};
      ids := ids + [id];
    }
    SortedLists(ids, s);
    ids := Sort(TextLeq, ids);
  }

  method FindingForClaim(tx: Texts, c: Claim, index: map<string, seq<Result>>, results: seq<Result>)
    returns (f: Finding, ghost order: seq<string>)
    requires forall key :: At(index, key) == Filed(tx, results, key)
    ensures FindingOf(tx, c, results, order, f)
  {
    var best;
    best, order := BestResultForClaim(tx, c, index, results);
    f := BuildClaimFinding(tx, c, best);
  }

  method BuildClaimFindings(tx: Texts, claims: seq<Claim>, results: seq<Result>)
    returns (findings: seq<Finding>, ghost orders: seq<seq<string>>)
    ensures Assembled(tx, claims, results, orders, [], findings)
  {
    var index := IndexResults(tx, results);
    findings, orders := [], [];
    for i := 0 to |claims|
      invariant |orders| == |findings| == i
      invariant forall k :: 0 <= k < i ==> FindingOf(tx, claims[k], results, orders[k], findings[k])
    {
      var f; ghost var order;
      f, order := FindingForClaim(tx, claims[i], index, results);
      findings, orders := findings + [f], orders + [order];
    }
  }

  method MissingRequiredFindings(tx: Texts, required: set<string>, findings: seq<Finding>)
    returns (absent: seq<Finding>, missing: seq<string>)
    ensures Lists(missing, required - Present(findings))
    ensures |absent| == |missing| && forall k :: 0 <= k < |absent| ==> absent[k] == MissingFinding(tx, missing[k])
  {
    missing := SortedSet(required - Present(findings));
    absent := [];
    for i := 0 to |missing|
      invariant |absent| == i && forall k :: 0 <= k < i ==> absent[k] == MissingFinding(tx, missing[k])
    {
      absent := absent + [MissingFinding(tx, missing[i])];
    }
  }

  method BuildTrustFindings(tx: Texts, claims: seq<Claim>, results: seq<Result>, asked: set<string>)
    returns (trust: Trust, missing: seq<string>, ghost orders: seq<seq<string>>)
    ensures Built(tx, claims, results, RequiredIds(tx, claims, asked), orders, missing, trust.findings)
    ensures trust == BuildResult(trust.findings, RequiredIds(tx, claims, asked))
  {
    var required := RequiredIds(tx, claims, asked);
    var findings, absent;
    findings, orders := BuildClaimFindings(tx, claims, results);
    absent, missing := MissingRequiredFindings(tx, required, findings);
    assert (findings + absent)[..|claims|] == findings;
    trust := BuildResult(findings + absent, required);
  }

  // ---- Findings rest on evidence --------------------------------------------------------------

  ghost predicate RestsOnEvidence(c: Claim, result: Option<Result>) {
    && !IsRequiredClaimMissing(c) && result.Some?
    && Confirms(result.value) && !Contradicts(result.value) && HasVerifierEvidence(result.value)
  }

  /** Green exactly for a confirming, uncontradicted result that names its task and a provider. */
  lemma GreenRestsOnEvidence(tx: Texts, c: Claim, result: Option<Result>)
    ensures BuildClaimFinding(tx, c, result).status == Green <==> RestsOnEvidence(c, result)
    ensures BuildClaimFinding(tx, c, result).status == Green ==>
              BuildClaimFinding(tx, c, result).refs == [result.value.taskId]
  {
  }

  lemma ReviewSurvivesDedupe(codes: seq<Code>, more: seq<Code>)
    requires AnyNeedsReview(more)
    ensures AnyNeedsReview(Dedupe(codes + more))
  {
    var k :| 0 <= k < |more| && NeedsReview(more[k]);
    assert (codes + more)[|codes| + k] in Dedupe(codes + more);
  }

  /** Without evidence a finding is amber, sent to manual review, and its confidence stays below the green threshold. */
  lemma NoEvidenceMeansManualReview(tx: Texts, c: Claim, result: Option<Result>)
    requires Evidence(c, result).None?
    ensures var f := BuildClaimFinding(tx, c, result);
            f.status == Amber && f.manualReview && f.refs == [] && f.confidence.final <= 0.79
  {
    DefaultsNeedReview(c, None);
    ReviewSurvivesDedupe(ExplicitCodes(c, None), StatusAndReasons(c, None).1);
  }

  /**
   * The AI's own score decides nothing: with another score the finding is the same but for the recorded AI score and,
   * where it rests on no evidence, the final confidence, which stays at 0.79 or below.
   */
  lemma AiScoreDecidesNothing(tx: Texts, c: Claim, ai: Option<real>, result: Option<Result>)
    ensures var (f, g) := (BuildClaimFinding(tx, c, result), BuildClaimFinding(tx, c.(ai := ai), result));
            && g == f.(confidence := g.confidence)
            && g.confidence.verifier == f.confidence.verifier
            && (Evidence(c, result).Some? ==> g.confidence.final == f.confidence.final == f.confidence.verifier)
            && (Evidence(c, result).None? ==> g.status == Amber && g.confidence.final <= 0.79)
  {
    var other := c.(ai := ai);
    assert Evidence(other, result) == Evidence(c, result);
    assert StatusAndReasons(other, Evidence(c, result)) == StatusAndReasons(c, Evidence(c, result));
    assert ExplicitCodes(other, Evidence(c, result)) == ExplicitCodes(c, Evidence(c, result));
    if Evidence(c, result).None? {
      NoEvidenceMeansManualReview(tx, other, result);
    }
  }

  /** Each way of ending up amber without reason codes of one's own calls for review. */
  lemma DefaultsNeedReview(c: Claim, evidence: Option<Result>)
    requires StatusAndReasons(c, evidence).0 == Amber
    ensures AnyNeedsReview(StatusAndReasons(c, evidence).1)
  {
    var defaults := StatusAndReasons(c, evidence).1;
    if evidence.Some? && defaults == evidence.value.rawCodes
       && exists k :: 0 <= k < |defaults| && NoProviderCode(defaults[k]) {
      var k :| 0 <= k < |defaults| && NoProviderCode(defaults[k]);
      assert NeedsReview(defaults[k]);
    } else {
      assert NeedsReview(defaults[0]);
    }
  }

  /**
   * An amber finding escapes manual review exactly when its result does not recommend one and its own reason codes,
   * of which there are some, all lie outside the review codes.
   */
  lemma AmberEscapesReviewIff(tx: Texts, c: Claim, result: Option<Result>)
    requires BuildClaimFinding(tx, c, result).status == Amber
    ensures !BuildClaimFinding(tx, c, result).manualReview <==>
            && Evidence(c, result).Some? && !Evidence(c, result).value.recommended
            && ExplicitCodes(c, Evidence(c, result)) != []
            && !AnyNeedsReview(ExplicitCodes(c, Evidence(c, result)))
  {
    var evidence := Evidence(c, result);
    if evidence.None? {
      NoEvidenceMeansManualReview(tx, c, result);
    } else {
      var defaults := StatusAndReasons(c, evidence).1;
      DefaultsNeedReview(c, evidence);
      ReviewSurvivesDedupe([], defaults);
      assert [] + defaults == defaults;
    }
  }

  lemma DedupeOne<T(!new)>(x: T)
    ensures Dedupe([x]) == [x]
  {
    assert [x][..0] == [];
    assert Dedupe([x][..0]) == [];
  }

  /** Such a result: a plain one without any status, whose own reason code no rule knows. */
  lemma UnflaggedAmberExists(tx: Texts, c: Claim, r: Result, text: string)
    requires !IsRequiredClaimMissing(c) && c.codes == [] && r.codes == [Other(text)] && !r.recommended
    requires r.audit == NoAudit && r.color == NoColor && r.task == OtherTask && r.answer == NoAnswer
    ensures BuildClaimFinding(tx, c, Some(r)).status == Amber && !BuildClaimFinding(tx, c, Some(r)).manualReview
  {
    DedupeOne(Other(text));
    assert c.codes + r.codes == [Other(text)];
    AmberEscapesReviewIff(tx, c, Some(r));
  }

  // ---- Reasons --------------------------------------------------------------------------------

  lemma DefaultsAreSome(c: Claim, evidence: Option<Result>)
    ensures StatusAndReasons(c, evidence).1 != []
  {
  }

  lemma DedupeKeepsSome<T(!new)>(s: seq<T>)
    requires s != []
    ensures Dedupe(s) != []
  {
    assert s[0] in Dedupe(s);
  }

  /** Every finding gives a reason. */
  lemma FindingGivesReason(tx: Texts, c: Claim, result: Option<Result>)
    ensures BuildClaimFinding(tx, c, result).codes != []
  {
    var evidence := Evidence(c, result);
    DefaultsAreSome(c, evidence);
    var defaults := StatusAndReasons(c, evidence).1;
    DedupeKeepsSome(defaults);
    DedupeKeepsSome(ExplicitCodes(c, evidence) + defaults);
  }

  // ---- Mismatches -----------------------------------------------------------------------------

  /** Whatever other results accompany it, `r` makes the chosen one contradict the claim. */
  ghost predicate Dominates(r: Result) {
    forall before: seq<Result>, after: seq<Result> :: Contradicts(Top(before + [r] + after))
  }

  /** A confirmation as strong as can be. */
  const STRONGEST := Result("t", "", "", "", AuditVerified, ColorGreen, OtherTask, NoAnswer,
                            Keys("p", "", "", "", "", ""), Labels("", "", "", ""), Value(1.0), Absent, [], [], false)

  /**
   * A contradicting result is never outvoted exactly when it says so in its audit status or its colour: a bare
   * MISMATCH in `status` is outvoted by a strong confirmation.
   */
  lemma MismatchDominatesIff(r: Result)
    requires Contradicts(r)
    ensures Dominates(r) <==> Explicit(r)
  {
    if Explicit(r) {
      forall before: seq<Result>, after: seq<Result>
        ensures Contradicts(Top(before + [r] + after))
      {
        var all := before + [r] + after;
        assert all[|before|] == r;
        assert !Below(Top(all), r);
      }
    } else {
      var all := [STRONGEST] + [r] + [];
      assert all == [STRONGEST, r];
      assert Top(all[..1]) == STRONGEST;
      assert !Below(STRONGEST, r);
      assert Top(all) == STRONGEST;
    }
  }

  lemma {:induction false} FiledIff(tx: Texts, results: seq<Result>, key: string, r: Result)
    ensures r in Filed(tx, results, key) <==> r in results && FiledUnder(tx, r, key)
  {
    if results != [] {
      var n := |results| - 1;
      assert results == results[..n] + [results[n]];
      FiledIff(tx, results[..n], key, r);
    }
  }

  /** A result shares an identifier with the claim. */
  ghost predicate Concerns(tx: Texts, c: Claim, r: Result) {
    || FiledUnder(tx, r, tx.strip(c.credentialId)) || FiledUnder(tx, r, tx.strip(c.claimId))
    || FiledUnder(tx, r, tx.strip(c.fieldId))
  }

  predicate FiledUnderSome(tx: Texts, order: seq<string>, r: Result) {
    exists i :: 0 <= i < |order| && FiledUnder(tx, r, tx.strip(order[i]))
  }

  lemma FiledUnderSomeNext(tx: Texts, order: seq<string>, r: Result)
    requires order != []
    ensures FiledUnderSome(tx, order, r) <==>
            FiledUnderSome(tx, order[..|order| - 1], r) || FiledUnder(tx, r, tx.strip(order[|order| - 1]))
  {
    var init := order[..|order| - 1];
    if FiledUnderSome(tx, init, r) {
      var i :| 0 <= i < |init| && FiledUnder(tx, r, tx.strip(init[i]));
      assert FiledUnder(tx, r, tx.strip(order[i]));
    }
    if FiledUnderSome(tx, order, r) {
      var i :| 0 <= i < |order| && FiledUnder(tx, r, tx.strip(order[i]));
      assert i < |init| ==> FiledUnder(tx, r, tx.strip(init[i]));
    }
  }

  lemma {:induction false} OwnIff(tx: Texts, order: seq<string>, results: seq<Result>, r: Result)
    ensures r in Own(tx, order, results) <==> r in results && FiledUnderSome(tx, order, r)
    decreases |order|
  {
    if order != [] {
      var init, key := order[..|order| - 1], tx.strip(order[|order| - 1]);
      OwnIff(tx, init, results, r);
      FiledIff(tx, results, key, r);
      FiledUnderSomeNext(tx, order, r);
      var own, more := Own(tx, init, results), if key == "" then [] else Filed(tx, results, key);
      assert Own(tx, order, results) == own + more;
      assert r in own + more <==> r in own || r in more;
    }
  }

  /** The candidates are the results that concern the claim, whatever the order, or else all results. */
  lemma CandidatesAre(tx: Texts, c: Claim, order: seq<string>, results: seq<Result>, r: Result)
    requires IsOrder(c, order)
    ensures r in Own(tx, order, results) <==> r in results && Concerns(tx, c, r)
    ensures r in results && Concerns(tx, c, r) ==> r in Candidates(tx, order, results)
  {
    OwnIff(tx, order, results, r);
    assert c.credentialId in order && c.claimId in order && c.fieldId in order;
    if r in results && Concerns(tx, c, r) {
      var key := if FiledUnder(tx, r, tx.strip(c.credentialId)) then c.credentialId
                 else if FiledUnder(tx, r, tx.strip(c.claimId)) then c.claimId else c.fieldId;
      var i :| 0 <= i < |order| && order[i] == key;
      assert FiledUnder(tx, r, tx.strip(order[i]));
    }
    forall i | 0 <= i < |order|
      ensures order[i] in {c.credentialId, c.claimId, c.fieldId}
    {
      assert order[i] in order;
    }
  }

  /** One explicit mismatch that concerns a claim turns its finding red, in whatever order the results are looked up. */
  lemma ExplicitMismatchIsRed(tx: Texts, c: Claim, order: seq<string>, results: seq<Result>, r: Result)
    requires IsOrder(c, order) && !IsRequiredClaimMissing(c)
    requires r in results && Concerns(tx, c, r) && Explicit(r)
    ensures BuildClaimFinding(tx, c, Choose(tx, order, results)).status == Red
  {
    CandidatesAre(tx, c, order, results, r);
    var candidates := Candidates(tx, order, results);
    assert !Below(Top(candidates), r);
  }

  lemma OwnAreResults(tx: Texts, order: seq<string>, results: seq<Result>, r: Result)
    requires r in Own(tx, order, results)
    ensures r in results
  {
    OwnIff(tx, order, results, r);
  }

  /** Whatever the order, what is chosen is one of the results. */
  lemma ChosenIsAResult(tx: Texts, order: seq<string>, results: seq<Result>)
    requires Choose(tx, order, results).Some?
    ensures Choose(tx, order, results).value in results
  {
    var candidates := Candidates(tx, order, results);
    if Own(tx, order, results) != [] {
      OwnAreResults(tx, order, results, Top(candidates));
    }
  }

  /**
   * What a claim is judged by concerns the claim exactly when some result does; otherwise the claim borrows the
   * strongest of all results.
   */
  lemma ChosenConcernsIff(tx: Texts, c: Claim, order: seq<string>, results: seq<Result>)
    requires IsOrder(c, order) && results != []
    ensures Choose(tx, order, results).Some?
    ensures Concerns(tx, c, Choose(tx, order, results).value) <==> exists r :: r in results && Concerns(tx, c, r)
    ensures (forall r :: r in results ==> !Concerns(tx, c, r)) ==> Choose(tx, order, results) == Some(Top(results))
  {
    var own := Own(tx, order, results);
    ChosenIsAResult(tx, order, results);
    if own != [] {
      CandidatesAre(tx, c, order, results, Top(own));
    } else {
      forall r | r in results
        ensures !Concerns(tx, c, r)
      {
        CandidatesAre(tx, c, order, results, r);
      }
    }
  }

  // ---- The outcome of a document --------------------------------------------------------------

  ghost predicate SomeStatus(findings: seq<Finding>, s: Status) {
    exists i :: 0 <= i < |findings| && findings[i].status == s
  }

  ghost predicate AllGreen(findings: seq<Finding>) {
    forall i :: 0 <= i < |findings| ==> findings[i].status == Green
  }

  ghost predicate SomeRequired(findings: seq<Finding>, required: set<string>) {
    exists i :: 0 <= i < |findings| && IsRequired(findings[i], required)
  }

  ghost predicate SomeBacked(findings: seq<Finding>) {
    exists i :: 0 <= i < |findings| && Backed(findings[i])
  }

  /** What each outcome says about the findings. */
  lemma OutcomeMeans(findings: seq<Finding>, required: set<string>)
    ensures Outcome(findings, required) == Red <==> SomeStatus(findings, Red)
    ensures Outcome(findings, required) == Green <==>
            AllGreen(findings) && SomeRequired(findings, required) && SomeBacked(findings)
  {
    CountIfBounded(HasStatus(Red), findings);
    CountIfBounded(HasStatus(Amber), findings);
  }

  /**
   * A document is green exactly when every claim rests on verifier evidence, every required id is borne by a claim
   * and some claim is required: never without evidence from a named task and provider.
   */
  lemma GreenDocumentIff(
    tx: Texts, claims: seq<Claim>, results: seq<Result>, required: set<string>, orders: seq<seq<string>>,
    missing: seq<string>, findings: seq<Finding>)
    requires Built(tx, claims, results, required, orders, missing, findings)
    ensures Outcome(findings, required) == Green <==>
            && (forall i :: 0 <= i < |claims| ==> RestsOnEvidence(claims[i], Choose(tx, orders[i], results)))
            && required <= Present(findings[..|claims|])
            && SomeRequired(findings[..|claims|], required)
  {
    OutcomeMeans(findings, required);
    forall i | 0 <= i < |claims|
      ensures findings[i].status == Green <==> RestsOnEvidence(claims[i], Choose(tx, orders[i], results))
      ensures findings[i].status == Green ==> Backed(findings[i])
    {
      assert FindingOf(tx, claims[i], results, orders[i], findings[i]);
      GreenRestsOnEvidence(tx, claims[i], Choose(tx, orders[i], results));
    }
    GreenMeansNoneMissing(tx, claims, results, required, orders, missing, findings);
    if AllGreen(findings) || missing == [] {
      assert findings[..|claims|] == findings;
    }
  }

  lemma GreenMeansNoneMissing(
    tx: Texts, claims: seq<Claim>, results: seq<Result>, required: set<string>, orders: seq<seq<string>>,
    missing: seq<string>, findings: seq<Finding>)
    requires Built(tx, claims, results, required, orders, missing, findings)
    ensures AllGreen(findings) ==> missing == []
    ensures missing == [] <==> required <= Present(findings[..|claims|])
  {
    if missing != [] {
      assert findings[|claims| + 0] == MissingFinding(tx, missing[0]);
      assert missing[0] in missing;
    } else {
      forall id | id in required
        ensures id in Present(findings[..|claims|])
      {
        assert id !in missing;
      }
    }
  }

  lemma {:induction false} StatusesPartition(findings: seq<Finding>)
    ensures CountIf(HasStatus(Green), findings) + CountIf(HasStatus(Amber), findings)
            + CountIf(HasStatus(Red), findings) == |findings|
  {
    if findings != [] {
      StatusesPartition(findings[..|findings| - 1]);
    }
  }

  /** Every claim and every missing required id is counted once, the missing ones as amber. */
  lemma CountsCoverClaimsAndMissing(
    tx: Texts, claims: seq<Claim>, results: seq<Result>, required: set<string>, orders: seq<seq<string>>,
    missing: seq<string>, findings: seq<Finding>)
    requires Built(tx, claims, results, required, orders, missing, findings)
    ensures var trust := BuildResult(findings, required);
            trust.green + trust.amber + trust.red == |claims| + |missing| && trust.amber >= |missing|
  {
    forall i | |claims| <= i < |findings|
      ensures findings[i].status == Amber
    {
      assert findings[|claims| + (i - |claims|)] == MissingFinding(tx, missing[i - |claims|]);
    }
    CountAmberTail(findings, |claims|);
  }

  lemma CountAmberTail(findings: seq<Finding>, n: nat)
    requires n <= |findings| && forall i :: n <= i < |findings| ==> findings[i].status == Amber
    ensures CountIf(HasStatus(Amber), findings) >= |findings| - n
    ensures CountIf(HasStatus(Green), findings) + CountIf(HasStatus(Amber), findings)
            + CountIf(HasStatus(Red), findings) == |findings|
  {
    StatusesPartition(findings);
    CountIfBounded(HasStatus(Amber), findings[n..]);
    CountIfAppend(HasStatus(Amber), findings[..n], findings[n..]);
    assert findings == findings[..n] + findings[n..];
  }

  function Severity(s: Status): nat {
    match s case Green => 0 case Amber => 1 case Red => 2
  }

  /** Each finding of `worse` is as bad as its counterpart or worse, and otherwise about the same claim and evidence. */
  ghost predicate Worsened(findings: seq<Finding>, worse: seq<Finding>) {
    && |worse| == |findings|
    && forall i :: 0 <= i < |findings| ==>
                     && Severity(worse[i].status) >= Severity(findings[i].status)
                     && worse[i].claimId == findings[i].claimId && worse[i].credentialId == findings[i].credentialId
                     && worse[i].refs == findings[i].refs
  }

  /** Worsening findings never improves the outcome. */
  lemma WorseningNeverImproves(findings: seq<Finding>, worse: seq<Finding>, required: set<string>)
    requires Worsened(findings, worse)
    ensures Severity(Outcome(worse, required)) >= Severity(Outcome(findings, required))
  {
    OutcomeMeans(findings, required);
    OutcomeMeans(worse, required);
    if SomeStatus(findings, Red) {
      var i :| 0 <= i < |findings| && findings[i].status == Red;
      assert worse[i].status == Red;
    } else if Outcome(worse, required) == Green {
      forall i | 0 <= i < |findings|
        ensures findings[i].status == Green
      {
        assert worse[i].status == Green;
      }
      var i :| 0 <= i < |worse| && IsRequired(worse[i], required);
      assert IsRequired(findings[i], required);
      var j :| 0 <= j < |worse| && Backed(worse[j]);
      assert Backed(findings[j]);
    }
  }

  lemma BuiltFindingGivesReason(
    tx: Texts, claims: seq<Claim>, results: seq<Result>, orders: seq<seq<string>>, missing: seq<string>,
    findings: seq<Finding>, n: nat)
    requires Assembled(tx, claims, results, orders, missing, findings) && n < |findings|
    ensures findings[n].codes != []
  {
    if n < |claims| {
      assert FindingOf(tx, claims[n], results, orders[n], findings[n]);
      FindingGivesReason(tx, claims[n], Choose(tx, orders[n], results));
    } else {
      assert findings[|claims| + (n - |claims|)] == MissingFinding(tx, missing[n - |claims|]);
    }
  }

  /** The verdict has a reason whenever its last finding has one, or there is no finding. */
  lemma ReasonsAreKept(findings: seq<Finding>, required: set<string>)
    requires findings != [] ==> findings[|findings| - 1].codes != []
    ensures BuildResult(findings, required).codes != []
  {
    OutcomeMeans(findings, required);
    if findings != [] {
      DedupeKeepsSome(AllCodes(findings));
    }
    DedupeKeepsSome(Dedupe(AllCodes(findings)) + [AllRequiredChecksMatched]);
  }

  /** Every verdict gives a reason. */
  lemma VerdictGivesReason(
    tx: Texts, claims: seq<Claim>, results: seq<Result>, required: set<string>, orders: seq<seq<string>>,
    missing: seq<string>, findings: seq<Finding>)
    requires Assembled(tx, claims, results, orders, missing, findings)
    ensures BuildResult(findings, required).codes != []
  {
    if findings != [] {
      BuiltFindingGivesReason(tx, claims, results, orders, missing, findings, |findings| - 1);
    }
    ReasonsAreKept(findings, required);
  }

  /** A claim's finding is green on a result that concerns the claim. */
  ghost predicate GreenOnOwnEvidence(tx: Texts, c: Claim, result: Option<Result>) {
    RestsOnEvidence(c, result) && Concerns(tx, c, result.value)
  }

  ghost predicate HasOwnResult(tx: Texts, c: Claim, results: seq<Result>) {
    exists r :: r in results && Concerns(tx, c, r)
  }

  /** A green claim is green on evidence about itself exactly when some result concerns it. */
  lemma OwnEvidenceIff(tx: Texts, c: Claim, order: seq<string>, results: seq<Result>)
    requires IsOrder(c, order) && RestsOnEvidence(c, Choose(tx, order, results))
    ensures GreenOnOwnEvidence(tx, c, Choose(tx, order, results)) <==> HasOwnResult(tx, c, results)
  {
    ChosenIsAResult(tx, order, results);
    ChosenConcernsIff(tx, c, order, results);
  }

  /**
   * In a document whose claims are all green, each is green on evidence about itself exactly when each has a result
   * that concerns it: borrowing is the only way to be green without.
   */
  lemma AllOwnEvidenceIff(
    tx: Texts, claims: seq<Claim>, results: seq<Result>, orders: seq<seq<string>>, missing: seq<string>,
    findings: seq<Finding>)
    requires Assembled(tx, claims, results, orders, missing, findings)
    requires forall i :: 0 <= i < |claims| ==> RestsOnEvidence(claims[i], Choose(tx, orders[i], results))
    ensures (forall i :: 0 <= i < |claims| ==> GreenOnOwnEvidence(tx, claims[i], Choose(tx, orders[i], results)))
            <==> forall i :: 0 <= i < |claims| ==> HasOwnResult(tx, claims[i], results)
  {
    forall i | 0 <= i < |claims|
      ensures GreenOnOwnEvidence(tx, claims[i], Choose(tx, orders[i], results)) <==>
              HasOwnResult(tx, claims[i], results)
    {
      assert FindingOf(tx, claims[i], results, orders[i], findings[i]);
      OwnEvidenceIff(tx, claims[i], orders[i], results);
    }
  }
}
