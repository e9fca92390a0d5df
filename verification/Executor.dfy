/** Trying the providers of a verification task in order (backend/app/verifier_execution/executor.py). */
module Executor {
  import opened Prelude

  datatype Result = Result(
    reasonCodes: seq<string>, executedKey: string, executedLabel: string, fallbackReason: string, metadata: Metadata)

  /** What the attempts left behind in the result's raw summary; `""` stands for an absent entry. */
  datatype Metadata = Metadata(attempted: seq<string>, skipped: seq<string>, fallbackReason: string, lastError: string)

  datatype Provider = Provider(name: string, supported: bool)

  datatype Attempt = Raised(error: string) | Returned(result: Result)

  /**
   * The surroundings of one task: the key canonicaliser, whether its verifier is registered, the provider registry
   * (with each provider's answer to supports), what the verifier does on the i-th candidate, and what the manual
   * verifier returns for this task itself and for this task rerouted to it.
   */
  datatype Env = Env(
    canonical: string -> string, verifierRegistered: bool, provider: string -> Option<Provider>,
    run: (nat, string) -> Attempt, manualForTask: Result, manualForReroutedTask: Result)

  const MANUAL := "manual_review"

  function Text(first: string, default: string): string {
    if first != "" then first else default
  }

  /** The codes without repetitions and blanks, in order of first occurrence. */
  function DedupeCodes(codes: seq<string>): (r: seq<string>)
    ensures forall c :: c in r <==> c in codes && c != ""
    ensures Distinct(r)
  {
    Nonblank(Dedupe(codes))
  }

  // ---- The fate of one candidate --------------------------------------------------------------

  datatype Fate = Ignored | Manual | Skipped(code: string) | Failed(error: string) | Ran(result: Result, name: string)

  function FateOf(env: Env, i: nat, raw: string): Fate {
    var key := env.canonical(raw);
    if key == "" then Ignored
    else if key == MANUAL then Manual
    else if !env.verifierRegistered then Skipped("VERIFIER_NOT_REGISTERED")
    else
      match env.provider(key)
      case None => Skipped("PROVIDER_NOT_REGISTERED")
      case Some(p) =>
        if !p.supported then Skipped("PROVIDER_CAPABILITY_MISMATCH")
        else
          match env.run(i, key)
          case Raised(error) => Failed(error)
          case Returned(result) => Ran(result, p.name)
  }

  predicate Viable(env: Env, i: nat, raw: string) {
    FateOf(env, i, raw).Manual? || FateOf(env, i, raw).Ran?
  }

  /** The first candidate that is viable, or the number of candidates. */
  ghost predicate IsWinner(env: Env, candidates: seq<string>, w: nat) {
    && w <= |candidates| && (w < |candidates| ==> Viable(env, w, candidates[w]))
    && forall i :: 0 <= i < w ==> !Viable(env, i, candidates[i])
  }

  // ---- What the candidates before the winner leave behind -------------------------------------

  function Attempted(env: Env, candidates: seq<string>): seq<string> {
    if candidates == [] then []
    else
      var n := |candidates| - 1;
      var key := env.canonical(candidates[n]);
      Attempted(env, candidates[..n]) + (if key == "" then [] else [key])
  }

  function SkippedKeys(env: Env, candidates: seq<string>): seq<string> {
    if candidates == [] then []
    else
      var n := |candidates| - 1;
      SkippedKeys(env, candidates[..n]) +
      (if FateOf(env, n, candidates[n]).Skipped? then [env.canonical(candidates[n])] else [])
  }

  function RaisedKeys(env: Env, candidates: seq<string>): seq<string> {
    if candidates == [] then []
    else
      var n := |candidates| - 1;
      RaisedKeys(env, candidates[..n]) +
      (if FateOf(env, n, candidates[n]).Failed? then [env.canonical(candidates[n])] else [])
  }

  function FailureCodes(env: Env, candidates: seq<string>): seq<string> {
    if candidates == [] then []
    else
      var n := |candidates| - 1;
      FailureCodes(env, candidates[..n]) +
      match FateOf(env, n, candidates[n])
      case Skipped(code) => [code]
      case Failed(_) => ["VERIFIER_EXECUTION_FAILED"]
      case _ => []
  }

  function LastError(env: Env, candidates: seq<string>): string {
    if candidates == [] then ""
    else
      var n := |candidates| - 1;
      match FateOf(env, n, candidates[n])
      case Failed(error) => if |error| <= 240 then error else error[..240]
      case _ => LastError(env, candidates[..n])
  }

  function WithMetadata(r: Result, attempted: seq<string>, skipped: seq<string>, reason: string, error: string)
    : Result
  {
    r.(metadata := Metadata(Dedupe(attempted), if skipped != [] then Dedupe(skipped) else r.metadata.skipped,
                            Text(reason, r.metadata.fallbackReason), Text(error, r.metadata.lastError)))
  }

  /** The result when `failed` are the candidates before the first viable one, `raw`. */
  function Chosen(env: Env, failed: seq<string>, raw: string): Result
    requires Viable(env, |failed|, raw)
  {
    var attempted := Attempted(env, failed) + [env.canonical(raw)];
    var skipped, codes, error := SkippedKeys(env, failed), FailureCodes(env, failed), LastError(env, failed);
    match FateOf(env, |failed|, raw)
    case Manual =>
      var r := env.manualForTask;
      WithMetadata(r.(reasonCodes := DedupeCodes(r.reasonCodes + codes + ["MANUAL_REVIEW_PROVIDER_SELECTED"])),
                   attempted, skipped, Text(r.fallbackReason, "MANUAL_REVIEW_FALLBACK"), error)
    case Ran(r, name) =>
      var fallback := if |attempted| > 1 then ["PROVIDER_FALLBACK_USED"] else [];
      var key := env.canonical(raw);
      WithMetadata(r.(reasonCodes := DedupeCodes(r.reasonCodes + codes + fallback),
                      executedKey := Text(r.executedKey, key), executedLabel := Text(r.executedLabel, name)),
                   attempted, skipped, r.fallbackReason, error)
  }

  /** The manual-review result when no candidate is viable. */
  function Exhausted(env: Env, failed: seq<string>): Result {
    var r := env.manualForReroutedTask;
    var skipped, codes := SkippedKeys(env, failed), FailureCodes(env, failed);
    var ending := if skipped != [] then "NO_PROVIDER_AVAILABLE" else "ALL_PROVIDERS_FAILED";
    var reason := Text(r.fallbackReason, "NO_EXECUTABLE_PROVIDER");
    WithMetadata(r.(reasonCodes := DedupeCodes(r.reasonCodes + codes + [ending]), fallbackReason := reason),
                 Attempted(env, failed), skipped, reason, LastError(env, failed))
  }

  /** The first viable candidate in order decides, or manual review when there is none. */
  method ExecuteWithCandidates(env: Env, candidates: seq<string>) returns (r: Result, winner: nat)
    ensures IsWinner(env, candidates, winner)
    ensures r == if winner < |candidates| then Chosen(env, candidates[..winner], candidates[winner])
                 else Exhausted(env, candidates)
  {
    var attempted, skipped, codes: seq<string> := [], [], [];
    var lastError := "";
    for i := 0 to |candidates|
      invariant forall j :: 0 <= j < i ==> !Viable(env, j, candidates[j])
      invariant attempted == Attempted(env, candidates[..i]) && skipped == SkippedKeys(env, candidates[..i])
      invariant codes == FailureCodes(env, candidates[..i]) && lastError == LastError(env, candidates[..i])
    {
      assert candidates[..i + 1][..i] == candidates[..i];
      var key := env.canonical(candidates[i]);
      if key == "" {
        continue;
      }
      attempted := attempted + [key];
      if key == MANUAL {
        r := env.manualForTask;
        r := r.(reasonCodes := DedupeCodes(r.reasonCodes + codes + ["MANUAL_REVIEW_PROVIDER_SELECTED"]));
        return WithMetadata(r, attempted, skipped, Text(r.fallbackReason, "MANUAL_REVIEW_FALLBACK"), lastError), i;
      }
      if !env.verifierRegistered {
        skipped, codes := skipped + [key], codes + ["VERIFIER_NOT_REGISTERED"];
        continue;
      }
      var provider := env.provider(key);
      if provider.None? {
        skipped, codes := skipped + [key], codes + ["PROVIDER_NOT_REGISTERED"];
        continue;
      }
      if !provider.value.supported {
        skipped, codes := skipped + [key], codes + ["PROVIDER_CAPABILITY_MISMATCH"];
        continue;
      }
      var attempt := env.run(i, key);
      if attempt.Raised? {
        lastError := if |attempt.error| <= 240 then attempt.error else attempt.error[..240];
        codes := codes + ["VERIFIER_EXECUTION_FAILED"];
        continue;
      }
      r := attempt.result;
      var fallback := if |attempted| > 1 then ["PROVIDER_FALLBACK_USED"] else [];
      r := r.(reasonCodes := DedupeCodes(r.reasonCodes + codes + fallback));
      if r.executedKey == "" {
        r := r.(executedKey := key);
      }
      if r.executedLabel == "" {
        r := r.(executedLabel := provider.value.name);
      }
      return WithMetadata(r, attempted, skipped, r.fallbackReason, lastError), i;
    }
    assert candidates[..|candidates|] == candidates;
    var reason := Text(env.manualForReroutedTask.fallbackReason, "NO_EXECUTABLE_PROVIDER");
    var ending := if skipped != [] then "NO_PROVIDER_AVAILABLE" else "ALL_PROVIDERS_FAILED";
    r := env.manualForReroutedTask;
    r := r.(reasonCodes := DedupeCodes(r.reasonCodes + codes + [ending]), fallbackReason := reason);
    return WithMetadata(r, attempted, skipped, reason, lastError), |candidates|;
  }

  // ---- What the attempts tell -----------------------------------------------------------------

  ghost predicate NoneViable(env: Env, candidates: seq<string>) {
    forall i :: 0 <= i < |candidates| ==> !Viable(env, i, candidates[i])
  }

  /** What one candidate that is not viable adds. */
  lemma OneMoreFailure(env: Env, failed: seq<string>) returns (key: seq<string>, skip: seq<string>, raise: seq<string>)
    requires failed != [] && !Viable(env, |failed| - 1, Last(failed))
    ensures |key| <= 1 && ((skip == key && raise == []) || (skip == [] && raise == key))
    ensures var init := failed[..|failed| - 1];
            && Attempted(env, failed) == Attempted(env, init) + key
            && |FailureCodes(env, failed)| == |FailureCodes(env, init)| + |key|
            && SkippedKeys(env, failed) == SkippedKeys(env, init) + skip
            && RaisedKeys(env, failed) == RaisedKeys(env, init) + raise
  {
    var n := |failed| - 1;
    key := if env.canonical(failed[n]) == "" then [] else [env.canonical(failed[n])];
    skip := if FateOf(env, n, failed[n]).Skipped? then key else [];
    raise := if FateOf(env, n, failed[n]).Failed? then key else [];
  }

  lemma BagOf<T>(s: seq<T>, t: seq<T>)
    ensures multiset(s + t) == multiset(s) + multiset(t)
  {
  }

  /** Before the winner every attempt was either skipped or raised, and left exactly one code. */
  lemma {:induction false} AttemptsSplit(env: Env, failed: seq<string>)
    requires NoneViable(env, failed)
    ensures multiset(Attempted(env, failed)) == multiset(SkippedKeys(env, failed)) + multiset(RaisedKeys(env, failed))
    ensures |FailureCodes(env, failed)| == |Attempted(env, failed)|
  {
    if failed != [] {
      var init := failed[..|failed| - 1];
      AttemptsSplit(env, init);
      assert !Viable(env, |failed| - 1, failed[|failed| - 1]);
      var key, skip, raise := OneMoreFailure(env, failed);
      BagOf(Attempted(env, init), key);
      BagOf(SkippedKeys(env, init), skip);
      BagOf(RaisedKeys(env, init), raise);
    }
  }

  /** The k-th code is the one of the k-th attempt. */
  lemma {:induction false} CodesFollowAttempts(env: Env, failed: seq<string>, k: nat) returns (i: nat)
    requires NoneViable(env, failed) && k < |Attempted(env, failed)|
    ensures |FailureCodes(env, failed)| == |Attempted(env, failed)|
    ensures i < |failed| && Attempted(env, failed)[k] == env.canonical(failed[i])
    ensures k == |Attempted(env, failed[..i])|
    ensures FailureCodes(env, failed)[k] ==
            if !env.verifierRegistered then "VERIFIER_NOT_REGISTERED"
            else if env.provider(env.canonical(failed[i])).None? then "PROVIDER_NOT_REGISTERED"
            else if !env.provider(env.canonical(failed[i])).value.supported then "PROVIDER_CAPABILITY_MISMATCH"
            else "VERIFIER_EXECUTION_FAILED"
  {
    var n := |failed| - 1;
    var init := failed[..n];
    AttemptsSplit(env, init);
    AttemptsSplit(env, failed);
    assert !Viable(env, n, failed[n]);
    if k < |Attempted(env, init)| {
      i := CodesFollowAttempts(env, init, k);
      assert init[..i] == failed[..i];
    } else {
      i := n;
    }
  }

  /** The final list of reasons keeps every failure code, without blanks or repetitions. */
  lemma FailuresAreReported(env: Env, failed: seq<string>, raw: string)
    requires Viable(env, |failed|, raw)
    ensures forall code :: code in FailureCodes(env, failed) && code != "" ==>
                             code in Chosen(env, failed, raw).reasonCodes && code in Exhausted(env, failed).reasonCodes
    ensures "" !in Chosen(env, failed, raw).reasonCodes && Distinct(Chosen(env, failed, raw).reasonCodes)
  {
  }

  lemma {:induction false} CodesAreOfFourKinds(env: Env, failed: seq<string>, code: string)
    requires code in FailureCodes(env, failed)
    ensures code in ["VERIFIER_NOT_REGISTERED", "PROVIDER_NOT_REGISTERED", "PROVIDER_CAPABILITY_MISMATCH",
                     "VERIFIER_EXECUTION_FAILED"]
  {
    var n := |failed| - 1;
    if code in FailureCodes(env, failed[..n]) {
      CodesAreOfFourKinds(env, failed[..n], code);
    }
  }

  /** Where the final reasons of a provider's result come from. */
  lemma ReasonsOfRun(env: Env, failed: seq<string>, raw: string, code: string)
    requires NoneViable(env, failed) && FateOf(env, |failed|, raw).Ran? && code != ""
    ensures code in Chosen(env, failed, raw).reasonCodes <==>
            || code in FateOf(env, |failed|, raw).result.reasonCodes
            || code in FailureCodes(env, failed)
            || (Attempted(env, failed) != [] && code == "PROVIDER_FALLBACK_USED")
  {
  }

  /** A provider's result is marked as a fallback exactly when it was not the first attempt, or came so marked. */
  lemma FallbackIsMarked(env: Env, failed: seq<string>, raw: string)
    requires NoneViable(env, failed) && FateOf(env, |failed|, raw).Ran?
    ensures "PROVIDER_FALLBACK_USED" in Chosen(env, failed, raw).reasonCodes <==>
            || Attempted(env, failed) != []
            || "PROVIDER_FALLBACK_USED" in FateOf(env, |failed|, raw).result.reasonCodes
  {
    ReasonsOfRun(env, failed, raw, "PROVIDER_FALLBACK_USED");
    if "PROVIDER_FALLBACK_USED" in FailureCodes(env, failed) {
      CodesAreOfFourKinds(env, failed, "PROVIDER_FALLBACK_USED");
    }
  }

  /** `run` raises on the same attempts as the verifier of `env`, but may answer differently. */
  ghost predicate RaisesAlike(env: Env, run: (nat, string) -> Attempt) {
    forall i, key :: run(i, key) == env.run(i, key) || (run(i, key).Returned? && env.run(i, key).Returned?)
  }

  /** What a verifier answers never makes the loop go on: only which candidates fail decides who wins. */
  lemma {:induction false} AnswersDoNotMatter(env: Env, run: (nat, string) -> Attempt, candidates: seq<string>, w: nat)
    requires RaisesAlike(env, run) && IsWinner(env, candidates, w)
    ensures IsWinner(env.(run := run), candidates, w)
    ensures Attempted(env.(run := run), candidates[..w]) == Attempted(env, candidates[..w])
    ensures FailureCodes(env.(run := run), candidates[..w]) == FailureCodes(env, candidates[..w])
  {
    SameTrail(env, run, candidates[..w]);
    forall i | 0 <= i < |candidates|
      ensures Viable(env.(run := run), i, candidates[i]) <==> Viable(env, i, candidates[i])
    {
    }
  }

  lemma {:induction false} SameTrail(env: Env, run: (nat, string) -> Attempt, failed: seq<string>)
    requires RaisesAlike(env, run)
    ensures Attempted(env.(run := run), failed) == Attempted(env, failed)
    ensures FailureCodes(env.(run := run), failed) == FailureCodes(env, failed)
  {
    if failed != [] {
      SameTrail(env, run, failed[..|failed| - 1]);
    }
  }

  lemma NoneSkipped(env: Env, failed: seq<string>)
    requires NoneViable(env, failed)
    ensures SkippedKeys(env, failed) == [] <==>
            multiset(Attempted(env, failed)) == multiset(RaisedKeys(env, failed))
  {
    AttemptsSplit(env, failed);
    BagOf(SkippedKeys(env, failed), RaisedKeys(env, failed));
    assert |multiset(SkippedKeys(env, failed) + RaisedKeys(env, failed))| ==
           |SkippedKeys(env, failed)| + |RaisedKeys(env, failed)|;
    assert |multiset(RaisedKeys(env, failed))| == |RaisedKeys(env, failed)|;
  }

  lemma EndingsDiffer()
    ensures "NO_PROVIDER_AVAILABLE" != "ALL_PROVIDERS_FAILED"
  {
    assert "NO_PROVIDER_AVAILABLE"[0] != "ALL_PROVIDERS_FAILED"[0];
  }

  /** Without a viable candidate the ending tells whether every attempt raised or some were skipped. */
  lemma EndingTellsWhy(env: Env, failed: seq<string>)
    requires NoneViable(env, failed)
    requires "ALL_PROVIDERS_FAILED" !in env.manualForReroutedTask.reasonCodes
    ensures "ALL_PROVIDERS_FAILED" in Exhausted(env, failed).reasonCodes <==>
            multiset(Attempted(env, failed)) == multiset(RaisedKeys(env, failed))
  {
    NoneSkipped(env, failed);
    EndingsDiffer();
    EndingIsNoCode(env, failed);
  }

  lemma EndingIsNoCode(env: Env, failed: seq<string>)
    ensures "ALL_PROVIDERS_FAILED" !in FailureCodes(env, failed)
  {
    if "ALL_PROVIDERS_FAILED" in FailureCodes(env, failed) {
      CodesAreOfFourKinds(env, failed, "ALL_PROVIDERS_FAILED");
    }
  }
}
