/** Concrete runs that show which tempting properties of the session protocol fail. */
module SessionWitnesses {
  import opened Prelude
  import opened StateMachine
  import opened SessionTable
  import opened SessionProtocol
  import opened SessionHolding
  import opened SessionReview

  lemma Do(es: seq<Event>, e: Event) returns (es': seq<Event>)
    ensures RunTo(es') == Apply(RunTo(es), e)
  {
    es' := es + [e];
    assert es'[..|es'| - 1] == es;
  }

  /** Caller `a` reads and then commits one call; other callers keep what they hold. */
  lemma DoCall(es: seq<Event>, a: ActorId, id: SessionId, call: Call) returns (es': seq<Event>)
    requires call.Run? || call.Acquire? || Ends(call)
    requires MayCall(ActorOf(RunTo(es), a), id, call) && WellFormed(call) && (Ends(call) ==> !call.bundled)
    requires id in RunTo(es).rows && ValidTransition(RunTo(es).rows[id].status, Targets(call)[0])
    requires LeaseAllows(GuardOf(call), RunTo(es).rows[id].lease)
    ensures RunTo(es') == RunTo(es).(
              rows := RunTo(es).rows[id := Written(RunTo(es).rows[id], Targets(call)[0], ValuesOf(call))],
              actors := RunTo(es).actors[a := AfterSuccess(id, call)])
  {
    var w := RunTo(es);
    var e1 := Do(es, Read(a, id, call));
    assert RunTo(e1) == w.(actors := w.actors[a := InFlight(id, w.rows[id].status, call)]);
    es' := Do(e1, Write(a));
    assert w.actors[a := InFlight(id, w.rows[id].status, call)][a := AfterSuccess(id, call)] ==
           w.actors[a := AfterSuccess(id, call)];
  }

  /** A reviewer loads, reads and commits a decision on a session that is PENDING_HUMAN_REVIEW. */
  lemma DoReview(es: seq<Event>, a: ActorId, id: SessionId, d: Decision) returns (es': seq<Event>)
    requires ActorOf(RunTo(es), a).Idle?
    requires id in RunTo(es).rows && RunTo(es).rows[id].status == PendingHumanReview
    ensures RunTo(es').rows == RunTo(es).rows[id := RunTo(es).rows[id].(status := FinalState(d))]
    ensures RunTo(es').actors == RunTo(es).actors[a := Idle]
  {
    ReviewSteps(RunTo(es), a, id, d);
    var e1 := Do(es, LoadForReview(a, id, d));
    var e2 := Do(e1, Read(a, id, Review(d, false)));
    es' := Do(e2, Write(a));
  }

  lemma ReviewSteps(w: World, a: ActorId, id: SessionId, d: Decision)
    requires ActorOf(w, a).Idle? && id in w.rows && w.rows[id].status == PendingHumanReview
    ensures var w' := Apply(Apply(Apply(w, LoadForReview(a, id, d)), Read(a, id, Review(d, false))), Write(a));
            && w'.rows == w.rows[id := w.rows[id].(status := FinalState(d))] && w'.actors == w.actors[a := Idle]
  {
    var w1 := Apply(w, LoadForReview(a, id, d));
    assert w1 == w.(actors := w.actors[a := ReviewLoaded(id, d, PendingHumanReview)]);
    var w2 := Apply(w1, Read(a, id, Review(d, false)));
    assert w2 == w.(actors := w.actors[a := InFlight(id, PendingHumanReview, Review(d, false))]);
  }

  /** A caller uploads a document with an unused, unexpired token. */
  lemma DoUpload(es: seq<Event>, a: ActorId, id: SessionId, token: TokenId) returns (es': seq<Event>)
    requires ActorOf(RunTo(es), a).Idle?
    requires token in RunTo(es).tokens && RunTo(es).tokens[token].session == id
    requires !RunTo(es).tokens[token].used && RunTo(es).now <= RunTo(es).tokens[token].expires
    requires id in RunTo(es).rows && RunTo(es).rows[id].status == UploadPending
    ensures RunTo(es').rows ==
            RunTo(es).rows[id := Written(RunTo(es).rows[id], UploadedPendingReview, ValuesOf(Upload(token)))]
    ensures RunTo(es').receipts == RunTo(es).receipts
    ensures RunTo(es').actors == RunTo(es).actors[a := Idle]
  {
    UploadSteps(RunTo(es), a, id, token);
    var e1 := Do(es, LoadForUpload(a, token));
    var e2 := Do(e1, Read(a, id, Upload(token)));
    es' := Do(e2, Write(a));
  }

  lemma UploadSteps(w: World, a: ActorId, id: SessionId, token: TokenId)
    requires ActorOf(w, a).Idle?
    requires token in w.tokens && w.tokens[token].session == id
    requires !w.tokens[token].used && w.now <= w.tokens[token].expires
    requires id in w.rows && w.rows[id].status == UploadPending
    ensures var w' := Apply(Apply(Apply(w, LoadForUpload(a, token)), Read(a, id, Upload(token))), Write(a));
            && w'.rows == w.rows[id := Written(w.rows[id], UploadedPendingReview, ValuesOf(Upload(token)))]
            && w'.receipts == w.receipts && w'.actors == w.actors[a := Idle]
  {
    var w1 := Apply(w, LoadForUpload(a, token));
    assert w1 == w.(actors := w.actors[a := UploadLoaded(id, token)]);
    var w2 := Apply(w1, Read(a, id, Upload(token)));
    assert w2 == w.(actors := w.actors[a := InFlight(id, UploadPending, Upload(token))]);
  }

  /** A caller issues the first upload token of a new session. */
  lemma DoOpenUpload(es: seq<Event>, a: ActorId, id: SessionId, token: TokenId, expires: Time) returns (es': seq<Event>)
    requires ActorOf(RunTo(es), a).Idle? && token !in RunTo(es).tokens
    requires id in RunTo(es).rows && RunTo(es).rows[id].status == Created
    ensures RunTo(es') == RunTo(es).(
              rows := RunTo(es).rows[id := RunTo(es).rows[id].(status := UploadPending)],
              tokens := RunTo(es).tokens[token := Token(id, false, expires)],
              actors := RunTo(es).actors[a := Idle])
  {
    OpenUploadSteps(RunTo(es), a, id, token, expires);
    var e1 := Do(es, LoadForToken(a, id, token, expires));
    var e2 := Do(e1, Read(a, id, OpenUpload(token, expires)));
    es' := Do(e2, Write(a));
  }

  lemma OpenUploadSteps(w: World, a: ActorId, id: SessionId, token: TokenId, expires: Time)
    requires ActorOf(w, a).Idle? && token !in w.tokens
    requires id in w.rows && w.rows[id].status == Created
    ensures var loaded := Apply(w, LoadForToken(a, id, token, expires));
            Apply(Apply(loaded, Read(a, id, OpenUpload(token, expires))), Write(a)) ==
            w.(rows := w.rows[id := w.rows[id].(status := UploadPending)],
               tokens := w.tokens[token := Token(id, false, expires)],
               actors := w.actors[a := Idle])
  {
    var w1 := Apply(w, LoadForToken(a, id, token, expires));
    assert w1 == w.(actors := w.actors[a := TokenLoaded(id, token, expires, Created)]);
    var w2 := Apply(w1, Read(a, id, OpenUpload(token, expires)));
    assert w2 == w.(actors := w.actors[a := InFlight(id, Created, OpenUpload(token, expires))]);
  }

  /** A new session is given a token and a document. */
  lemma UploadedRun() returns (es: seq<Event>)
    ensures RunTo(es).rows == map["s" := NEW_ROW.(status := UploadedPendingReview)]
    ensures RunTo(es).receipts == map[]
    ensures RunTo(es).actors == map["a" := Idle]
  {
    var e0: seq<Event> := [];
    var e1 := Do(e0, CreateSession("s"));
    assert RunTo(e1) == World(0, map["s" := NEW_ROW], map[], map[], map[]);
    var e2 := DoOpenUpload(e1, "a", "s", "t", 100);
    es := DoUpload(e2, "a", "s", "t");
  }

  /** The converse of "a lease implies VERIFYING" fails: /run verifies without one. */
  lemma VerifyingWithoutLease() returns (es: seq<Event>)
    ensures "s" in RunTo(es).rows
    ensures RunTo(es).rows["s"].status == Verifying && RunTo(es).rows["s"].lease == None
  {
    es := UploadedRun();
    es := DoCall(es, "a", "s", Run);
  }

  /** Worker "a" takes the session while "b", in start_verification with injected stages, verifies it too. */
  lemma IntrudedRun() returns (es: seq<Event>)
    ensures RunTo(es).rows == map["s" := NEW_ROW.(status := Verifying, lease := Some("a"))]
    ensures RunTo(es).actors ==
            map["a" := Processing("s", ByWorker("a"), Working), "b" := Processing("s", Injected, Working)]
    ensures RunTo(es).receipts == map[]
  {
    var e0 := UploadedRun();
    var e1 := DoCall(e0, "a", "s", Acquire("a"));
    assert ActorOf(RunTo(e1), "b").Idle?;
    es := Do(e1, Inject("b", "s"));
  }

  /** "Only the lease holder completes" fails through an injected call: b's completion ends the lease of worker a. */
  lemma CompletedByAnother() returns (es: seq<Event>, e: Event)
    ensures EndedByAnother(RunTo(es), e, "s", "a")
  {
    var e0 := IntrudedRun();
    var call := Complete(Injected, PendingHumanReview, "GREEN", false);
    es := Do(e0, Read("b", "s", call));
    e := Write("b");
    assert ActorOf(RunTo(es), "b") == InFlight("s", Verifying, call);
    assert Commits(RunTo(es), "b");
  }

  /**
   The latest receipt of an approved session can carry no decision: worker a is still running when an injected
   call completes its session; a then stores its bundle, can neither complete nor fail the session, and marking its
   job failed commits the bundle.
   */
  lemma LateBundleHidesDecision() returns (es: seq<Event>)
    ensures "s" in RunTo(es).rows && RunTo(es).rows["s"].status == HumanApproved
    ensures ReceiptsOf(RunTo(es), "s") != [] && Last(ReceiptsOf(RunTo(es), "s")).decision == None
  {
    var e0 := IntrudedRun();
    var e1 := DoCall(e0, "b", "s", Complete(Injected, PendingHumanReview, "GREEN", false));
    es := LateBundle(e1, "a", "b", "s");
  }

  /** A worker inside a session that waits for review can hide the decision that follows. */
  lemma LateBundle(es: seq<Event>, a: ActorId, b: ActorId, id: SessionId) returns (es': seq<Event>)
    requires a != b && ActorOf(RunTo(es), b).Idle? && a in RunTo(es).actors && CanStore(RunTo(es).actors[a], id)
    requires id in RunTo(es).rows && RunTo(es).rows[id].status == PendingHumanReview
    ensures id in RunTo(es').rows && RunTo(es').rows[id].status == HumanApproved
    ensures ReceiptsOf(RunTo(es'), id) != [] && Last(ReceiptsOf(RunTo(es'), id)).decision == None
  {
    var e1 := DoReview(es, b, id, Approved);
    assert ActorOf(RunTo(e1), a) == ActorOf(RunTo(es), a);
    var more := StoresLate(e1, a, id);
    es' := e1 + more;
  }
}
