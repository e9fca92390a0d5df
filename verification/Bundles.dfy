/** Bundling task results by credential (backend/app/verifier_execution/executor.py). */
module Bundles {
  import opened Prelude

  datatype Audit = Mismatch | Verified | Partial | Unverified | ManualReview | NotApplicable | Unknown(text: string)

  datatype TaskResult = TaskResult(
    credential: string, audit: Audit, color: string, succeeded: bool, confidence: Option<real>, codes: seq<string>)

  datatype Task = Task(id: string, credential: string)

  datatype Credential = Credential(id: string, requiresVerification: bool)

  datatype Bundle = Bundle(
    credential: string, taskIds: seq<string>, count: nat, audit: Audit, color: string,
    codes: seq<string>, best: Option<TaskResult>, all: seq<TaskResult>)

  function Priority(a: Audit): int {
    match a
    case Mismatch => 60
    case Verified => 50
    case Partial => 40
    case Unverified => 30
    case ManualReview => 20
    case NotApplicable => 10
    case Unknown(_) => 0
  }

  /** The key (priority, succeeded, confidence) of `a` is less than that of `b`. */
  predicate Worse(a: TaskResult, b: TaskResult) {
    || Priority(a.audit) < Priority(b.audit)
    || (Priority(a.audit) == Priority(b.audit) && !a.succeeded && b.succeeded)
    || (Priority(a.audit) == Priority(b.audit) && a.succeeded == b.succeeded &&
        a.confidence.GetOr(0.0) < b.confidence.GetOr(0.0))
  }

  /** max(results, key=...): of the results none is better, and none before it as good. */
  function Best(results: seq<TaskResult>): (best: TaskResult)
    requires results != []
    ensures best in results && forall r :: r in results ==> !Worse(best, r)
  {
    var last := results[|results| - 1];
    if |results| == 1 then last
    else
      var front := Best(results[..|results| - 1]);
      assert results == results[..|results| - 1] + [last];
      if Worse(front, last) then last else front
  }

  /** Among equally good results the first is taken. */
  lemma {:induction false} BestIsFirst(results: seq<TaskResult>) returns (i: nat)
    requires results != []
    ensures i < |results| && results[i] == Best(results)
    ensures forall j :: 0 <= j < i ==> Worse(results[j], results[i])
  {
    i := 0;
    var n := |results| - 1;
    if n > 0 {
      i := BestIsFirst(results[..n]);
      if Worse(results[i], results[n]) {
        forall j | 0 <= j < n
          ensures Worse(results[j], results[n])
        {
          assert results[..n][j] in results[..n];
        }
        i := n;
      } else {
        assert forall j :: 0 <= j < i ==> results[..n][j] == results[j];
      }
    }
  }

  /** The results recorded for a credential id, in order. */
  function For(results: seq<TaskResult>, id: string): (own: seq<TaskResult>)
    ensures forall r :: r in own <==> r in results && r.credential == id
  {
    if results == [] then []
    else
      var n := |results| - 1;
      assert results == results[..n] + [results[n]];
      For(results[..n], id) + (if results[n].credential == id then [results[n]] else [])
  }

  function TaskIdsFor(tasks: seq<Task>, id: string): seq<string> {
    if tasks == [] then []
    else
      var n := |tasks| - 1;
      TaskIdsFor(tasks[..n], id) + (if tasks[n].credential == id then [tasks[n].id] else [])
  }

  function CodesOf(results: seq<TaskResult>): seq<string> {
    if results == [] then [] else CodesOf(results[..|results| - 1]) + results[|results| - 1].codes
  }

  function BundleFor(c: Credential, taskIds: seq<string>, own: seq<TaskResult>): Bundle {
    if own != [] then
      var best := Best(own);
      Bundle(c.id, taskIds, |own|, best.audit, best.color, Dedupe(Nonblank(CodesOf(own))), Some(best), own)
    else if c.requiresVerification then
      Bundle(c.id, taskIds, 0, Unverified, "AMBER", ["NO_TASK_RESULT"], None, own)
    else
      Bundle(c.id, taskIds, 0, NotApplicable, "NEUTRAL", ["VERIFICATION_NOT_REQUIRED"], None, own)
  }

  function BundleOf(c: Credential, tasks: seq<Task>, results: seq<TaskResult>): Bundle {
    BundleFor(c, TaskIdsFor(tasks, c.id), For(results, c.id))
  }

  function AllBundles(credentials: seq<Credential>, tasks: seq<Task>, results: seq<TaskResult>): (bundles: seq<Bundle>)
    ensures |bundles| == |credentials|
    ensures forall i :: 0 <= i < |bundles| ==> bundles[i] == BundleOf(credentials[i], tasks, results)
  {
    seq(|credentials|, i requires 0 <= i < |credentials| => BundleOf(credentials[i], tasks, results))
  }

  method GroupResults(results: seq<TaskResult>) returns (byCredential: map<string, seq<TaskResult>>)
    ensures forall id :: At(byCredential, id) == For(results, id)
  {
    byCredential := map[];
    for i := 0 to |results|
      invariant forall id :: At(byCredential, id) == For(results[..i], id)
    {
      assert results[..i + 1][..i] == results[..i];
      var id := results[i].credential;
      byCredential := byCredential[id := At(byCredential, id) + [results[i]]];
    }
    assert results[..|results|] == results;
  }

  method GroupTasks(tasks: seq<Task>) returns (byCredential: map<string, seq<string>>)
    ensures forall id :: At(byCredential, id) == TaskIdsFor(tasks, id)
  {
    byCredential := map[];
    for i := 0 to |tasks|
      invariant forall id :: At(byCredential, id) == TaskIdsFor(tasks[..i], id)
    {
      assert tasks[..i + 1][..i] == tasks[..i];
      var id := tasks[i].credential;
      byCredential := byCredential[id := At(byCredential, id) + [tasks[i].id]];
    }
    assert tasks[..|tasks|] == tasks;
  }

  method BuildBundles(credentials: seq<Credential>, tasks: seq<Task>, results: seq<TaskResult>)
    returns (bundles: seq<Bundle>)
    ensures bundles == AllBundles(credentials, tasks, results)
  {
    var resultsBy := GroupResults(results);
    var tasksBy := GroupTasks(tasks);
    bundles := [];
    for i := 0 to |credentials|
      invariant |bundles| == i
      invariant forall j :: 0 <= j < i ==> bundles[j] == BundleOf(credentials[j], tasks, results)
    {
      var c := credentials[i];
      var bundle := BundleFor(c, At(tasksBy, c.id), At(resultsBy, c.id));
      assert bundle == BundleOf(c, tasks, results);
      bundles := bundles + [bundle];
    }
  }

  // ---- Properties -----------------------------------------------------------------------------

  /** The bundle's status is the gravest of its results': no result outranks it, and some result has it. */
  lemma BundleTakesGravestStatus(credentials: seq<Credential>, tasks: seq<Task>, results: seq<TaskResult>, i: nat)
    requires i < |credentials| && exists r :: r in results && r.credential == credentials[i].id
    ensures var b := AllBundles(credentials, tasks, results)[i];
            && (exists r :: r in results && r.credential == credentials[i].id && r.audit == b.audit)
            && (forall r :: r in results && r.credential == credentials[i].id ==>
                              Priority(r.audit) <= Priority(b.audit))
  {
    var own := For(results, credentials[i].id);
    var r :| r in results && r.credential == credentials[i].id;
    assert r in own;
    assert Best(own) in results;
  }

  /** A bundle is a mismatch exactly when one of its credential's results is. */
  lemma MismatchDominates(credentials: seq<Credential>, tasks: seq<Task>, results: seq<TaskResult>, i: nat)
    requires i < |credentials|
    ensures AllBundles(credentials, tasks, results)[i].audit == Mismatch <==>
            exists r :: r in results && r.credential == credentials[i].id && r.audit == Mismatch
  {
    var own := For(results, credentials[i].id);
    if own != [] {
      forall r | r in own && r.audit == Mismatch
        ensures Best(own).audit == Mismatch
      {
        assert !Worse(Best(own), r);
      }
      assert Best(own) in own;
    } else {
      assert forall r :: r in results && r.credential == credentials[i].id ==> r in own;
    }
  }

  /** A bundle is verified exactly when one of its credential's results is and none is a mismatch. */
  lemma VerifiedUnlessMismatch(credentials: seq<Credential>, tasks: seq<Task>, results: seq<TaskResult>, i: nat)
    requires i < |credentials|
    ensures AllBundles(credentials, tasks, results)[i].audit == Verified <==>
            && (exists r :: r in results && r.credential == credentials[i].id && r.audit == Verified)
            && (forall r :: r in results && r.credential == credentials[i].id ==> r.audit != Mismatch)
  {
    var own := For(results, credentials[i].id);
    if own != [] {
      assert Best(own) in own;
      BundleTakesGravestStatus(credentials, tasks, results, i);
    } else {
      assert forall r :: r in results && r.credential == credentials[i].id ==> r in own;
    }
  }

  function TotalCount(bundles: seq<Bundle>): nat {
    if bundles == [] then 0 else TotalCount(bundles[..|bundles| - 1]) + bundles[|bundles| - 1].count
  }

  function HasId(id: string): Credential -> bool {
    (c: Credential) => c.id == id
  }

  /** For every result, how many credentials bear its id. */
  function Bearers(credentials: seq<Credential>, results: seq<TaskResult>): nat {
    if results == [] then 0
    else Bearers(credentials, results[..|results| - 1])
         + CountIf(HasId(results[|results| - 1].credential), credentials)
  }

  lemma {:induction false} OneMoreCredential(credentials: seq<Credential>, c: Credential, results: seq<TaskResult>)
    ensures Bearers(credentials + [c], results) == Bearers(credentials, results) + |For(results, c.id)|
    decreases |results|
  {
    if results != [] {
      var n := |results| - 1;
      OneMoreCredential(credentials, c, results[..n]);
      assert (credentials + [c])[..|credentials|] == credentials;
    }
  }

  lemma {:induction false} NoCredentials(results: seq<TaskResult>)
    ensures Bearers([], results) == 0
  {
    if results != [] {
      NoCredentials(results[..|results| - 1]);
    }
  }

  lemma FrontBundles(credentials: seq<Credential>, tasks: seq<Task>, results: seq<TaskResult>)
    requires credentials != []
    ensures var n := |credentials| - 1;
            && AllBundles(credentials, tasks, results)[..n] == AllBundles(credentials[..n], tasks, results)
            && AllBundles(credentials, tasks, results)[n].count == |For(results, credentials[n].id)|
            && credentials[..n] + [credentials[n]] == credentials
  {
    var n, bundles := |credentials| - 1, AllBundles(credentials, tasks, results);
    assert bundles[n] == BundleOf(credentials[n], tasks, results);
    assert bundles[..n] == AllBundles(credentials[..n], tasks, results);
  }

  /** Results are counted once for every credential that bears their id: none is lost, none invented. */
  lemma {:induction false} CountsAddUp(credentials: seq<Credential>, tasks: seq<Task>, results: seq<TaskResult>)
    ensures TotalCount(AllBundles(credentials, tasks, results)) == Bearers(credentials, results)
  {
    if credentials == [] {
      NoCredentials(results);
    } else {
      var n := |credentials| - 1;
      FrontBundles(credentials, tasks, results);
      CountsAddUp(credentials[..n], tasks, results);
      OneMoreCredential(credentials[..n], credentials[n], results);
    }
  }

  ghost predicate UniqueIds(credentials: seq<Credential>) {
    forall i, j :: 0 <= i < j < |credentials| ==> credentials[i].id != credentials[j].id
  }

  ghost predicate Known(credentials: seq<Credential>, id: string) {
    exists i :: 0 <= i < |credentials| && credentials[i].id == id
  }

  lemma {:induction false} UniqueBearer(credentials: seq<Credential>, id: string)
    requires UniqueIds(credentials)
    ensures CountIf(HasId(id), credentials) == if Known(credentials, id) then 1 else 0
  {
    if credentials != [] {
      var n := |credentials| - 1;
      UniqueBearer(credentials[..n], id);
      if Known(credentials[..n], id) {
        var i :| 0 <= i < n && credentials[..n][i].id == id;
        assert credentials[i].id == id;
      }
    }
  }

  /** With unique credential ids, the counts sum to the results of known credentials; to all if none is unknown. */
  lemma {:induction false} CountsSumToResults(credentials: seq<Credential>, tasks: seq<Task>, results: seq<TaskResult>)
    requires UniqueIds(credentials)
    ensures TotalCount(AllBundles(credentials, tasks, results)) <= |results|
    ensures TotalCount(AllBundles(credentials, tasks, results)) == |results| <==>
            forall k :: 0 <= k < |results| ==> Known(credentials, results[k].credential)
  {
    CountsAddUp(credentials, tasks, results);
    BearersOfKnown(credentials, results);
  }

  lemma {:induction false} BearersOfKnown(credentials: seq<Credential>, results: seq<TaskResult>)
    requires UniqueIds(credentials)
    ensures Bearers(credentials, results) <= |results|
    ensures Bearers(credentials, results) == |results| <==>
            forall k :: 0 <= k < |results| ==> Known(credentials, results[k].credential)
    decreases |results|
  {
    if results != [] {
      var n := |results| - 1;
      BearersOfKnown(credentials, results[..n]);
      UniqueBearer(credentials, results[n].credential);
      assert forall k :: 0 <= k < n ==> results[..n][k] == results[k];
    }
  }
}
