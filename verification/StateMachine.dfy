/** The session state table (backend/app/workflow/state_machine.py) and what every walk through it obeys. */
module StateMachine {
  import opened Prelude

  datatype State =
    | Created
    | UploadPending
    | UploadedPendingReview
    | Verifying
    | VerifiedGreen
    | VerifiedAmber
    | VerifiedRed
    | PendingHumanReview
    | HumanApproved
    | HumanRejected
    | ManualReviewRequired
    | AbandonedVerifying
    | FailedRetriable
    | FailedPurged
    | PendingCleanup
    | PurgeComplete

  const VERIFIED_STATES: set<State> := {VerifiedGreen, VerifiedAmber, VerifiedRed}
  const HUMAN_FINAL_STATES: set<State> := {HumanApproved, HumanRejected, ManualReviewRequired}
  const TERMINAL_STATES: set<State> := HUMAN_FINAL_STATES + {FailedRetriable, FailedPurged, PurgeComplete}

  function AllowedTransitions(s: State): set<State> {
    match s
    case Created => {UploadPending}
    case UploadPending => {UploadedPendingReview}
    case UploadedPendingReview => {Verifying}
    case Verifying =>
      {VerifiedGreen, VerifiedAmber, VerifiedRed, PendingHumanReview, FailedRetriable, FailedPurged, AbandonedVerifying}
    case VerifiedGreen => {PendingHumanReview}
    case VerifiedAmber => {PendingHumanReview}
    case VerifiedRed => {PendingHumanReview}
    case PendingHumanReview => {HumanApproved, HumanRejected, ManualReviewRequired}
    case HumanApproved => {PendingCleanup}
    case HumanRejected => {PendingCleanup}
    case ManualReviewRequired => {PendingCleanup}
    case PendingCleanup => {PurgeComplete, FailedPurged}
    case FailedRetriable => {Verifying}
    case AbandonedVerifying => {FailedRetriable, FailedPurged}
    case FailedPurged => {}
    case PurgeComplete => {}
  }

  /** The membership check of validate_transition, which raises when this is false. */
  predicate ValidTransition(current: State, next: State) {
    next in AllowedTransitions(current)
  }

  /** A status history: it starts at CREATED and every step is in the table. */
  ghost predicate IsHistory(t: seq<State>) {
    && t != []
    && t[0] == Created
    && forall i, j :: 0 <= i < j < |t| && j == i + 1 ==> ValidTransition(t[i], t[j])
  }

  lemma HistoryPrefix(t: seq<State>)
    requires IsHistory(t) && |t| > 1
    ensures IsHistory(t[..|t| - 1])
    ensures ValidTransition(t[|t| - 2], t[|t| - 1])
    ensures Last(t[..|t| - 1]) == t[|t| - 2]
  {
  }

  lemma HistoryExtend(t: seq<State>, next: State)
    requires IsHistory(t) && ValidTransition(Last(t), next)
    ensures IsHistory(t + [next])
  {
  }

  // ---- Retries bound the length of a history --------------------------------------------------

  /** The number of FAILED_RETRIABLE to VERIFYING steps. */
  function Retries(t: seq<State>): nat {
    if |t| < 2 then 0
    else Retries(t[..|t| - 1]) + (if t[|t| - 2] == FailedRetriable && t[|t| - 1] == Verifying then 1 else 0)
  }

  /** How many more transitions can follow without another retry. */
  function Budget(s: State): nat {
    match s
    case Created => 8
    case UploadPending => 7
    case UploadedPendingReview => 6
    case Verifying => 5
    case VerifiedGreen | VerifiedAmber | VerifiedRed | AbandonedVerifying => 4
    case PendingHumanReview | FailedRetriable => 3
    case HumanApproved | HumanRejected | ManualReviewRequired => 2
    case PendingCleanup => 1
    case FailedPurged | PurgeComplete => 0
  }

  /** A history with k retries has made at most 3k + 8 transitions, and less by the budget still unspent. */
  lemma {:induction false} RetriesBoundLength(t: seq<State>)
    requires IsHistory(t)
    ensures |t| - 1 + Budget(Last(t)) <= 3 * Retries(t) + 8
  {
    if |t| > 1 {
      HistoryPrefix(t);
      RetriesBoundLength(t[..|t| - 1]);
    }
  }

  lemma Extend(t: seq<State>, next: State) returns (u: seq<State>)
    requires IsHistory(t) && ValidTransition(Last(t), next)
    ensures IsHistory(u) && |u| == |t| + 1 && Last(u) == next
    ensures Retries(u) == Retries(t) + (if Last(t) == FailedRetriable && next == Verifying then 1 else 0)
  {
    HistoryExtend(t, next);
    u := t + [next];
    assert u[..|u| - 1] == t;
  }

  /** A history that is abandoned, failed and retried k times and is then verifying again. */
  lemma {:induction false} RetriedHistory(k: nat) returns (t: seq<State>)
    ensures IsHistory(t) && Retries(t) == k
    ensures Last(t) == Verifying && |t| == 3 * k + 4
  {
    if k == 0 {
      t := [Created];
      t := Extend(t, UploadPending);
      t := Extend(t, UploadedPendingReview);
    } else {
      t := RetriedHistory(k - 1);
      t := Extend(t, AbandonedVerifying);
      t := Extend(t, FailedRetriable);
    }
    t := Extend(t, Verifying);
  }

  /** The bound is attained: for every k some history has k retries and exactly 3k + 8 transitions. */
  lemma RetryBoundIsTight(k: nat) returns (t: seq<State>)
    ensures IsHistory(t) && Retries(t) == k && |t| - 1 == 3 * k + 8
  {
    t := RetriedHistory(k);
    t := Extend(t, VerifiedGreen);
    t := Extend(t, PendingHumanReview);
    t := Extend(t, HumanApproved);
    t := Extend(t, PendingCleanup);
    t := Extend(t, PurgeComplete);
  }

  // ---- What a history has been through --------------------------------------------------------

  function Visits(t: seq<State>, s: State): nat {
    CountIf(x => x == s, t)
  }

  function HumanDecisions(t: seq<State>): nat {
    CountIf(x => x in HUMAN_FINAL_STATES, t)
  }

  /** States that no decided session can be in. */
  predicate Undecided(s: State) {
    s !in HUMAN_FINAL_STATES + {PendingCleanup, PurgeComplete, FailedPurged}
  }

  /** Where a history ends fixes how often it passed review and how many decisions it holds. */
  lemma {:induction false} DecisionsInHistory(t: seq<State>)
    requires IsHistory(t)
    ensures HumanDecisions(t) <= 1 && Visits(t, PendingHumanReview) <= 1
    ensures HumanDecisions(t) == 1 ==> Visits(t, PendingHumanReview) == 1
    ensures Undecided(Last(t)) ==> HumanDecisions(t) == 0
    ensures Undecided(Last(t)) && Last(t) != PendingHumanReview ==> Visits(t, PendingHumanReview) == 0
    ensures Last(t) == PendingHumanReview ==> Visits(t, PendingHumanReview) == 1
    ensures Last(t) in HUMAN_FINAL_STATES + {PendingCleanup, PurgeComplete} ==> HumanDecisions(t) == 1
  {
    if |t| > 1 {
      HistoryPrefix(t);
      DecisionsInHistory(t[..|t| - 1]);
    } else {
      assert t[..|t| - 1] == [] && t[0] == Created;
      assert CountIf((x: State) => x == PendingHumanReview, t[..0]) == 0;
      assert CountIf((x: State) => x in HUMAN_FINAL_STATES, t[..0]) == 0;
    }
  }

  /** A purged session passed PENDING_HUMAN_REVIEW once and exactly one human decision state once. */
  lemma PurgeNeedsOneDecision(t: seq<State>)
    requires IsHistory(t) && PurgeComplete in t
    ensures Visits(t, PendingHumanReview) == 1 && HumanDecisions(t) == 1
    ensures Last(t) == PurgeComplete && Visits(t, PurgeComplete) == 1
  {
    PurgeIsLast(t);
    DecisionsInHistory(t);
  }

  lemma {:induction false} PurgeIsLast(t: seq<State>)
    requires IsHistory(t)
    ensures PurgeComplete in t <==> Last(t) == PurgeComplete
    ensures Visits(t, PurgeComplete) == if Last(t) == PurgeComplete then 1 else 0
  {
    if |t| > 1 {
      HistoryPrefix(t);
      PurgeIsLast(t[..|t| - 1]);
      assert t == t[..|t| - 1] + [Last(t)];
    } else {
      assert t[..|t| - 1] == [];
      assert t[0] == Created && CountIf((x: State) => x == PurgeComplete, t[..0]) == 0;
    }
  }

  /** Entries into VERIFYING. */
  function Entries(t: seq<State>): nat {
    Visits(t, Verifying)
  }

  /** Steps out of VERIFYING. */
  function Exits(t: seq<State>): nat {
    if |t| < 2 then 0 else Exits(t[..|t| - 1]) + (if t[|t| - 2] == Verifying then 1 else 0)
  }

  lemma {:induction false} EntriesAndExits(t: seq<State>)
    requires IsHistory(t)
    ensures Entries(t) == Exits(t) + (if Last(t) == Verifying then 1 else 0)
  {
    if |t| > 1 {
      HistoryPrefix(t);
      EntriesAndExits(t[..|t| - 1]);
    } else {
      assert t[..|t| - 1] == [];
      assert t[0] == Created && CountIf((x: State) => x == Verifying, t[..0]) == 0;
    }
  }

  // ---- Regions that cannot be left ------------------------------------------------------------

  /** Reached only after a verification has completed; VERIFYING cannot be reached again from here. */
  const PAST_VERIFYING: set<State> :=
    VERIFIED_STATES + {PendingHumanReview} + HUMAN_FINAL_STATES + {PendingCleanup, PurgeComplete, FailedPurged}

  const CLOSING_STATES: set<State> := {PendingCleanup, PurgeComplete, FailedPurged}

  lemma RegionsAreClosed(s: State, next: State)
    requires ValidTransition(s, next)
    ensures s in PAST_VERIFYING ==> next in PAST_VERIFYING
    ensures s in CLOSING_STATES ==> next in CLOSING_STATES
    ensures s in HUMAN_FINAL_STATES ==> next == PendingCleanup
    ensures next == UploadPending ==> s == Created
    ensures next == UploadedPendingReview ==> s == UploadPending
  {
  }

  /** The states without a successor are PURGE_COMPLETE and FAILED_PURGED; TERMINAL_STATES holds more. */
  lemma SinksAreNotTheTerminalStates(s: State)
    ensures AllowedTransitions(s) == {} <==> s in {PurgeComplete, FailedPurged}
    ensures FailedRetriable in TERMINAL_STATES && ValidTransition(FailedRetriable, Verifying)
  {
  }
}
