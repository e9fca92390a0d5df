/**
 The routes that decide, upload and verify, as programs over the tables
 (backend/app/api/routes.py, backend/app/sessions/routes.py, backend/app/agent_orchestration/workspace.py).

 Each method performs its statements in turn and rolls back on an error; its contract says that, left undisturbed,
 it does what the steps of SessionProtocol do, so that the results about all interleavings speak of these routes.
 */
module SessionRoutes {
  import opened Prelude
  import opened StateMachine
  import opened SessionTable
  import opened SessionProtocol

  datatype Answer = Done | Stored | NotFound | Refused | Failed

  // ---- Undisturbed runs of the protocol -------------------------------------------------------

  /** The steps of one reviewer's request. */
  ghost function ReviewRun(w: World, a: ActorId, id: SessionId, d: Decision, viaPending: bool): World {
    var loaded := Apply(Apply(w, LoadForReview(a, id, d)), ReplayReceipt(a));
    Apply(Apply(Apply(loaded, Read(a, id, Review(d, viaPending))), Write(a)), Abort(a))
  }

  /** The steps of one request for an upload token. */
  ghost function TokenRun(w: World, a: ActorId, id: SessionId, token: TokenId, expires: Time): World {
    var loaded := Apply(Apply(w, LoadForToken(a, id, token, expires)), InsertToken(a));
    Apply(Apply(Apply(loaded, Read(a, id, OpenUpload(token, expires))), Write(a)), Abort(a))
  }

  /** The steps of one upload. */
  ghost function UploadRun(w: World, a: ActorId, id: SessionId, token: TokenId): World {
    Apply(Apply(Apply(Apply(w, LoadForUpload(a, token)), Read(a, id, Upload(token))), Write(a)), Abort(a))
  }

  /** One use of transition_state. */
  ghost function CallRun(w: World, a: ActorId, id: SessionId, call: Call): World {
    Apply(Apply(w, Read(a, id, call)), Write(a))
  }

  ghost predicate Alone(w: World, a: ActorId) {
    w.actors == map[a := Idle]
  }

  /** An undisturbed call that is valid and whose lease guard holds commits. */
  lemma CallCommits(w: World, a: ActorId, id: SessionId, call: Call)
    requires w.actors.Keys == {a} && id in w.rows && MayCall(w.actors[a], id, call) && WellFormed(call)
    requires !call.Acquire? && (call.OpenUpload? ==> call.token !in w.tokens)
    requires ValidTransition(w.rows[id].status, Targets(call)[0])
    ensures var reading := w.(actors := map[a := InFlight(id, w.rows[id].status, call)]);
            Commits(reading, a) && CallRun(w, a, id, call) == AfterCommit(reading, a)
  {
    assert Apply(w, Read(a, id, call)) == w.(actors := map[a := InFlight(id, w.rows[id].status, call)]);
  }

  lemma ReadThenWrite(w: World, a: ActorId, id: SessionId, call: Call)
    requires w.actors.Keys == {a} && id in w.rows && MayCall(w.actors[a], id, call) && WellFormed(call)
    requires !call.Acquire? && !Ends(call) && (call.OpenUpload? ==> call.token !in w.tokens)
    requires ValidTransition(w.rows[id].status, Targets(call)[0])
    ensures var after := Apply(Apply(Apply(w, Read(a, id, call)), Write(a)), Abort(a));
            && Alone(after, a) && after.now == w.now
            && after.rows == w.rows[id := Written(w.rows[id], Last(Targets(call)), ValuesOf(call))]
            && after.tokens == (match call
                                case OpenUpload(token, expires) => w.tokens[token := Token(id, false, expires)]
                                case Upload(token) =>
                                  if token !in w.tokens then w.tokens
                                  else w.tokens[token := w.tokens[token].(used := true)]
                                case _ => w.tokens)
            && after.receipts == (if call.Review?
                                  then w.receipts[id := RecordDecision(ReceiptsOf(w, id), call.decision, w.now)]
                                  else w.receipts)
  {
    CallCommits(w, a, id, call);
  }

  lemma ReadRefused(w: World, a: ActorId, id: SessionId, call: Call)
    requires w.actors.Keys == {a} && !w.actors[a].InFlight?
    requires !MayCall(w.actors[a], id, call) || id !in w.rows || !ValidTransition(w.rows[id].status, Targets(call)[0])
    ensures Apply(Apply(Apply(w, Read(a, id, call)), Write(a)), Abort(a)) == w.(actors := map[a := Idle])
  {
    var reading := Apply(w, Read(a, id, call));
    assert reading.actors.Keys == {a} && !reading.actors[a].InFlight?;
    assert Apply(reading, Write(a)) == reading;
  }

  function Decided(w: World, id: SessionId, d: Decision): map<SessionId, seq<Receipt>> {
    w.receipts[id := RecordDecision(ReceiptsOf(w, id), d, w.now)]
  }

  const REVIEWABLE: set<State> := VERIFIED_STATES + {PendingHumanReview}

  predicate HasStatus(rows: Rows, id: SessionId, states: set<State>) {
    id in rows && rows[id].status in states
  }

  /** The tables after a reviewer's request. */
  function Reviewed(w: World, id: SessionId, d: Decision): World {
    if HasStatus(w.rows, id, {FinalState(d)}) then w.(receipts := Decided(w, id, d))
    else if HasStatus(w.rows, id, REVIEWABLE) then
      w.(rows := w.rows[id := Written(w.rows[id], FinalState(d), NO_VALUES)], receipts := Decided(w, id, d))
    else w
  }

  lemma ReviewRunIs(w: World, a: ActorId, id: SessionId, d: Decision)
    requires Alone(w, a) && id in w.rows
    ensures ReviewRun(w, a, id, d, HasStatus(w.rows, id, VERIFIED_STATES)) == Reviewed(w, id, d)
  {
    var status := w.rows[id].status;
    var loaded := w.(actors := map[a := ReviewLoaded(id, d, status)]);
    assert Apply(w, LoadForReview(a, id, d)) == loaded;
    if status == FinalState(d) {
      assert Apply(loaded, ReplayReceipt(a)) == w.(receipts := Decided(w, id, d));
      ReadRefused(w.(receipts := Decided(w, id, d)), a, id, Review(d, status in VERIFIED_STATES));
    } else {
      assert Apply(loaded, ReplayReceipt(a)) == loaded;
      DecideRunIs(w, a, id, d);
    }
  }

  lemma DecideRunIs(w: World, a: ActorId, id: SessionId, d: Decision)
    requires Alone(w, a) && id in w.rows && w.rows[id].status != FinalState(d)
    ensures var (status, call) := (w.rows[id].status, Review(d, w.rows[id].status in VERIFIED_STATES));
            var loaded := w.(actors := map[a := ReviewLoaded(id, d, status)]);
            Apply(Apply(Apply(loaded, Read(a, id, call)), Write(a)), Abort(a)) == Reviewed(w, id, d)
  {
    var status := w.rows[id].status;
    var loaded := w.(actors := map[a := ReviewLoaded(id, d, status)]);
    if status in REVIEWABLE {
      ReadThenWrite(loaded, a, id, Review(d, status in VERIFIED_STATES));
    } else {
      ReadRefused(loaded, a, id, Review(d, status in VERIFIED_STATES));
    }
  }

  lemma UnknownReviewRun(w: World, a: ActorId, id: SessionId, d: Decision)
    requires Alone(w, a) && id !in w.rows
    ensures ReviewRun(w, a, id, d, false) == w
  {
    ReadRefused(w, a, id, Review(d, false));
  }

  /** After a request that is accepted the session has the decision's final state and its latest receipt names it. */
  lemma AcceptedMeansDecided(w: World, id: SessionId, d: Decision)
    requires HasStatus(w.rows, id, REVIEWABLE + {FinalState(d)})
    ensures var after := Reviewed(w, id, d);
            && HasStatus(after.rows, id, {FinalState(d)})
            && ReceiptsOf(after, id) != [] && Last(ReceiptsOf(after, id)).decision == Some(d)
            && Reviewed(after, id, d).rows == after.rows
  {
  }

  /** The tables after a request for an upload token: only a new session is given one. */
  function Issued(w: World, id: SessionId, token: TokenId, expires: Time): World {
    var tokens := w.tokens[token := Token(id, false, expires)];
    if HasStatus(w.rows, id, {Created}) then
      w.(rows := w.rows[id := Written(w.rows[id], UploadPending, NO_VALUES)], tokens := tokens)
    else if HasStatus(w.rows, id, {UploadPending}) then w.(tokens := tokens)
    else w
  }

  lemma TokenRunIs(w: World, a: ActorId, id: SessionId, token: TokenId, expires: Time)
    requires Alone(w, a) && token !in w.tokens
    ensures TokenRun(w, a, id, token, expires) == Issued(w, id, token, expires)
  {
    var call := OpenUpload(token, expires);
    var first := Apply(w, LoadForToken(a, id, token, expires));
    if id in w.rows && w.rows[id].status in {Created, UploadPending} {
      var loaded := Apply(first, InsertToken(a));
      if w.rows[id].status == Created {
        assert loaded == first == w.(actors := map[a := TokenLoaded(id, token, expires, Created)]);
        ReadThenWrite(loaded, a, id, call);
      } else {
        assert loaded == w.(tokens := w.tokens[token := Token(id, false, expires)], actors := map[a := Idle]);
        ReadRefused(loaded, a, id, call);
      }
    } else {
      assert first == w;
      ReadRefused(w, a, id, call);
    }
  }

  predicate Usable(w: World, token: TokenId) {
    token in w.tokens && !w.tokens[token].used && !(w.tokens[token].expires < w.now)
  }

  /** The tables after the use of a token: nothing changes unless the session still waits for its upload. */
  function Uploaded(w: World, token: TokenId): World
    requires token in w.tokens
  {
    var id := w.tokens[token].session;
    if HasStatus(w.rows, id, {UploadPending}) then
      w.(rows := w.rows[id := Written(w.rows[id], UploadedPendingReview, ValuesOf(Upload(token)))],
         tokens := w.tokens[token := w.tokens[token].(used := true)])
    else w
  }

  lemma UploadRunIs(w: World, a: ActorId, token: TokenId)
    requires Alone(w, a) && token in w.tokens
    ensures var id := w.tokens[token].session;
            UploadRun(w, a, id, token) == if Usable(w, token) then Uploaded(w, token) else w
  {
    var id := w.tokens[token].session;
    var loaded := Apply(w, LoadForUpload(a, token));
    if Usable(w, token) {
      assert loaded == w.(actors := map[a := UploadLoaded(id, token)]);
      if id in w.rows && w.rows[id].status == UploadPending {
        ReadThenWrite(loaded, a, id, Upload(token));
      } else {
        ReadRefused(loaded, a, id, Upload(token));
      }
    } else {
      assert loaded == w;
      ReadRefused(w, a, id, Upload(token));
    }
  }

  /** Where the /run route answers with the workspace stored earlier. */
  const ANSWERED: set<State> := VERIFIED_STATES + {PendingHumanReview} + HUMAN_FINAL_STATES

  const STARTABLE: set<State> := {UploadedPendingReview, FailedRetriable}

  /** How the /run route leaves VERIFYING: by completing, or by failing when the graph raised. */
  function Ending(bundled: bool, outcome: Option<string>): Call {
    if outcome.Some? then Complete(ByRoute, PendingHumanReview, outcome.value, bundled)
    else Fail(ByRoute, FailedRetriable, bundled)
  }

  /** The steps of one /run request: enter VERIFYING without a lease, and leave it, perhaps with an audit bundle. */
  ghost function VerifyRun(w: World, a: ActorId, id: SessionId, bundled: bool, outcome: Option<string>): World {
    CallRun(CallRun(w, a, id, Run), a, id, Ending(bundled, outcome))
  }

  function FinishedRow(outcome: Option<string>): Row {
    if outcome.Some? then Row(PendingHumanReview, None, None, Some("COMPLETED"), outcome)
    else Row(FailedRetriable, None, None, Some("FAILED"), None)
  }

  /** Undisturbed, the episode never ends in VERIFYING and leaves no lease. */
  lemma VerifyRunIs(w: World, a: ActorId, id: SessionId, bundled: bool, outcome: Option<string>)
    requires Alone(w, a) && HasStatus(w.rows, id, STARTABLE)
    ensures VerifyRun(w, a, id, bundled, outcome) ==
            w.(rows := w.rows[id := FinishedRow(outcome)], receipts := if bundled then Bundled(w, id) else w.receipts)
  {
    CallCommits(w, a, id, Run);
    var entered := CallRun(w, a, id, Run);
    assert entered.actors == map[a := Processing(id, ByRoute, Working)] && entered.rows[id].status == Verifying;
    assert entered.receipts == w.receipts && entered.tokens == w.tokens && entered.now == w.now;
    LeaveRunIs(entered, a, id, bundled, outcome);
    assert entered.rows[id := FinishedRow(outcome)] == w.rows[id := FinishedRow(outcome)];
  }

  lemma LeaveRunIs(w: World, a: ActorId, id: SessionId, bundled: bool, outcome: Option<string>)
    requires w.actors == map[a := Processing(id, ByRoute, Working)] && HasStatus(w.rows, id, {Verifying})
    ensures CallRun(w, a, id, Ending(bundled, outcome)) ==
            w.(rows := w.rows[id := FinishedRow(outcome)], receipts := if bundled then Bundled(w, id) else w.receipts,
               actors := map[a := Idle])
  {
    CallCommits(w, a, id, Ending(bundled, outcome));
  }

  // ---- The routes -----------------------------------------------------------------------------

  class SessionService {
    const repo: Repository
    var tokens: map<TokenId, Token>
    var receipts: map<SessionId, seq<Receipt>>
    var now: Time

    constructor (repo: Repository)
      ensures this.repo == repo && tokens == map[] && receipts == map[] && now == 0
    {
      this.repo := repo;
      tokens, receipts, now := map[], map[], 0;
    }

    /** The committed tables, with one idle caller. */
    ghost function View(a: ActorId): World
      reads this, repo
    {
      World(now, repo.rows, tokens, receipts, map[a := Idle])
    }

    /** upsert_final_review_receipt: rewrite the latest receipt, or add the first one. */
    method UpsertFinalReviewReceipt(id: SessionId, d: Decision)
      modifies this`receipts
      ensures receipts == old(receipts)[id := RecordDecision(At(old(receipts), id), d, now)]
    {
      var own := if id in receipts then receipts[id] else [];
      var receipt := UNDECIDED_RECEIPT;
      if own != [] {
        receipt := own[|own| - 1];
        own := own[..|own| - 1];
      }
      receipt := receipt.(decision := Some(d));
      receipt := receipt.(approvedAt := if d == Approved then Some(now) else None);
      receipt := receipt.(rejectedAt := if d == Rejected then Some(now) else None);
      receipt := receipt.(manualReviewAt := if d == NeedsManualReview then Some(now) else None);
      assert [] + [receipt] == [receipt];
      receipts := receipts[id := own + [receipt]];
    }

    /** The transitions and the receipt of a first decision. */
    method Decide(id: SessionId, d: Decision)
      requires HasStatus(repo.rows, id, REVIEWABLE)
      modifies repo, this`receipts
      ensures repo.rows == old(repo.rows)[id := old(repo.rows)[id].(status := FinalState(d))]
      ensures receipts == old(receipts)[id := RecordDecision(At(old(receipts), id), d, now)]
    {
      var status := repo.GetSessionState(id);
      if status.value in VERIFIED_STATES {
        var _ := repo.TransitionState(id, PendingHumanReview, AnyLease, NO_VALUES);
      }
      var _ := repo.TransitionState(id, FinalState(d), AnyLease, NO_VALUES);
      UpsertFinalReviewReceipt(id, d);
    }

    /** review_decision_route: record a decision, or record the same one again. */
    method ReviewDecision(id: SessionId, d: Decision, ghost a: ActorId) returns (answer: Answer)
      modifies repo, this`receipts
      ensures View(a) == ReviewRun(old(View(a)), a, id, d, HasStatus(old(repo.rows), id, VERIFIED_STATES))
      ensures View(a) == Reviewed(old(View(a)), id, d)
      ensures answer == Done <==> HasStatus(old(repo.rows), id, REVIEWABLE + {FinalState(d)})
    {
      ghost var before := View(a);
      var status := repo.GetSessionState(id);
      if status == None {
        UnknownReviewRun(before, a, id, d);
        return NotFound;
      }
      ReviewRunIs(before, a, id, d);
      if status.value == FinalState(d) {
        UpsertFinalReviewReceipt(id, d);
        return Done;
      }
      if status.value !in REVIEWABLE {
        return Refused;
      }
      Decide(id, d);
      return Done;
    }

    /** generate_upload_token; `token` is a fresh key. */
    method GenerateUploadToken(id: SessionId, token: TokenId, expires: Time, ghost a: ActorId) returns (answer: Answer)
      requires token !in tokens
      modifies repo, this`tokens
      ensures View(a) == TokenRun(old(View(a)), a, id, token, expires)
      ensures View(a) == Issued(old(View(a)), id, token, expires)
      ensures answer == Done <==> HasStatus(old(repo.rows), id, {Created, UploadPending})
    {
      ghost var before := View(a);
      TokenRunIs(before, a, id, token, expires);
      var status := repo.GetSessionState(id);
      if status == None {
        return NotFound;
      }
      if status.value !in {Created, UploadPending} {
        return Refused;
      }
      if status.value == Created {
        var _ := repo.TransitionState(id, UploadPending, AnyLease, NO_VALUES);
      }
      tokens := tokens[token := Token(id, false, expires)];
      return Done;
    }

    /** upload_file; `safe` says that the file passed the PDF checks. The token is spent only if the session moves. */
    method UploadFile(token: TokenId, safe: bool, ghost a: ActorId) returns (answer: Answer)
      modifies repo, this`tokens
      ensures token in old(tokens) && safe ==>
                View(a) == UploadRun(old(View(a)), a, old(tokens)[token].session, token)
      ensures answer == Done <==>
              && safe && Usable(old(View(a)), token)
              && HasStatus(old(repo.rows), old(tokens)[token].session, {UploadPending})
      ensures answer == Done ==> token in tokens && tokens[token].used
      ensures answer != Done ==> View(a) == old(View(a))
    {
      ghost var before := View(a);
      if token !in tokens {
        return NotFound;
      }
      UploadRunIs(before, a, token);
      if tokens[token].used || tokens[token].expires < now {
        return Refused;
      }
      if !safe {
        return Refused;
      }
      var moved := SpendToken(token, a);
      return if moved then Done else Failed;
    }

    /** The last statements of upload_file: the token and the status change together or not at all. */
    method SpendToken(token: TokenId, ghost a: ActorId) returns (moved: bool)
      requires Usable(View(a), token)
      modifies repo, this`tokens
      ensures moved <==> HasStatus(old(repo.rows), old(tokens)[token].session, {UploadPending})
      ensures View(a) == Uploaded(old(View(a)), token)
    {
      var saved := tokens;
      tokens := tokens[token := tokens[token].(used := true)];
      var id := saved[token].session;
      var result := repo.TransitionState(id, UploadedPendingReview, AnyLease, ValuesOf(Upload(token)));
      moved := result.Moved?;
      if !moved {
        tokens := saved;
      }
    }

    /**
     * run_generalized_verification_route with run_generalized_verification_session: `onDisk` says that the file is
     * there, `bundled` that an audit bundle was stored, and `outcome` is what the graph returned unless it raised.
     */
    method RunVerification(id: SessionId, onDisk: bool, bundled: bool, outcome: Option<string>, ghost a: ActorId)
      returns (answer: Answer)
      modifies repo, this`receipts
      ensures onDisk && HasStatus(old(repo.rows), id, STARTABLE) ==>
                View(a) == VerifyRun(old(View(a)), a, id, bundled, outcome)
      ensures !(onDisk && HasStatus(old(repo.rows), id, STARTABLE)) ==> View(a) == old(View(a))
      ensures answer == Done <==> onDisk && HasStatus(old(repo.rows), id, STARTABLE) && outcome.Some?
      ensures answer == Stored <==> onDisk && HasStatus(old(repo.rows), id, ANSWERED)
      ensures answer == Refused <==>
              onDisk && id in old(repo.rows) && old(repo.rows)[id].status !in STARTABLE + ANSWERED
    {
      ghost var before := View(a);
      var status := repo.GetSessionState(id);
      if status == None || !onDisk {
        return NotFound;
      }
      if status.value in CLOSING_STATES || status.value == Verifying {
        return Refused;
      }
      if status.value in ANSWERED {
        return Stored;
      }
      if status.value !in STARTABLE {
        return Refused;
      }
      VerifyRunIs(before, a, id, bundled, outcome);
      RunGeneralizedVerification(id, bundled, outcome);
      return if outcome.Some? then Done else Failed;
    }

    /** run_generalized_verification_session: the lease-free episode. */
    method RunGeneralizedVerification(id: SessionId, bundled: bool, outcome: Option<string>)
      requires HasStatus(repo.rows, id, STARTABLE)
      modifies repo, this`receipts
      ensures repo.rows == old(repo.rows)[id := FinishedRow(outcome)]
      ensures receipts == if bundled
                          then old(receipts)[id := At(old(receipts), id) + [UNDECIDED_RECEIPT]]
                          else old(receipts)
    {
      var _ := repo.TransitionState(id, Verifying, AnyLease, ValuesOf(Run));
      if bundled {
        receipts := receipts[id := (if id in receipts then receipts[id] else []) + [UNDECIDED_RECEIPT]];
      }
      if outcome.Some? {
        var _ := repo.CompleteProcessing(id, PendingHumanReview, outcome.value);
      } else {
        var _ := repo.FailProcessing(id, FailedRetriable);
      }
    }
  }
}
