/** One human decision and one upload per session, over every run of SessionProtocol. */
module SessionReview {
  import opened Prelude
  import opened StateMachine
  import opened SessionTable
  import opened SessionProtocol
  import opened SessionSafety
  import opened SessionHolding

  // ---- Decisions ------------------------------------------------------------------------------

  /** The decision timestamps agree with the decision: exactly the one it names is set. */
  predicate ReceiptOk(r: Receipt) {
    && (r.approvedAt.Some? <==> r.decision == Some(Approved))
    && (r.rejectedAt.Some? <==> r.decision == Some(Rejected))
    && (r.manualReviewAt.Some? <==> r.decision == Some(NeedsManualReview))
  }

  ghost predicate DecidedAs(t: seq<State>, d: Decision) {
    FinalState(d) in t
  }

  lemma UndecidedHasNoDecision(t: seq<State>, d: Decision)
    requires IsHistory(t) && Undecided(Last(t))
    ensures !DecidedAs(t, d)
  {
    DecisionsInHistory(t);
    CountIfBounded(x => x in HUMAN_FINAL_STATES, t);
  }

  lemma {:induction false} DecisionIsUnique(t: seq<State>, d: Decision, d': Decision)
    requires IsHistory(t) && DecidedAs(t, d) && DecidedAs(t, d')
    ensures d == d'
  {
    if |t| > 1 {
      var init := t[..|t| - 1];
      HistoryPrefix(t);
      assert t == init + [Last(t)];
      if Last(t) in HUMAN_FINAL_STATES {
        assert Last(init) == PendingHumanReview;
        UndecidedHasNoDecision(init, d);
        UndecidedHasNoDecision(init, d');
      } else {
        DecisionIsUnique(init, d, d');
      }
    }
  }

  /** Events that record a human decision on the latest receipt of session `id`. */
  predicate Records(w: World, e: Event, id: SessionId) {
    || (e.Write? && Commits(w, e.a) && ActorOf(w, e.a).id == id && ActorOf(w, e.a).call.Review?)
    || (e.ReplayReceipt? && Replays(w, e.a) && ActorOf(w, e.a).id == id)
  }

  /** Events that add the receipt of a verification to session `id`. */
  predicate StoresBundle(w: World, e: Event, id: SessionId) {
    || (e.StoreBundle? && LeftToStore(ActorOf(w, e.a)) == Some(id))
    || (e.Write? && Commits(w, e.a) && ActorOf(w, e.a).id == id
        && Ends(ActorOf(w, e.a).call) && ActorOf(w, e.a).call.bundled)
  }

  /** Every receipt is consistent and names no decision the session has not been given. */
  ghost predicate Faithful(rs: seq<Receipt>, t: seq<State>) {
    forall r :: r in rs ==> ReceiptOk(r) && (r.decision.Some? ==> DecidedAs(t, r.decision.value))
  }

  ghost predicate SomeDecision(t: seq<State>) {
    exists d :: DecidedAs(t, d)
  }

  /** The latest receipt carries a decision. */
  predicate Named(rs: seq<Receipt>) {
    rs != [] && Last(rs).decision.Some?
  }

  ghost predicate LoadedOk(w: World, id: SessionId, t: seq<State>) {
    forall a :: a in w.actors && w.actors[a].ReviewLoaded? && w.actors[a].id == id ==> w.actors[a].seen in t
  }

  ghost predicate ReviewInv(es: seq<Event>, id: SessionId) {
    var (rs, t) := (ReceiptsOf(RunTo(es), id), Trail(es, id));
    && Faithful(rs, t) && LoadedOk(RunTo(es), id, t)
    && (SomeDecision(t) ==> rs != [] && (!Intruded(es, id) ==> Named(rs)))
  }

  lemma OnlyReviewsDecide(w: World, e: Event, id: SessionId)
    requires Inv(w) && !Records(w, e, id)
    ensures forall d :: FinalState(d) !in Moves(w, e, id)
  {
    if e.Write? && Commits(w, e.a) {
      assert ActorOk(w, w.actors[e.a]);
    }
  }

  lemma FaithfulAfterRecording(rs: seq<Receipt>, t: seq<State>, t': seq<State>, d: Decision, now: Time)
    requires Faithful(rs, t) && t <= t' && DecidedAs(t', d)
    ensures Faithful(RecordDecision(rs, d, now), t') && Named(RecordDecision(rs, d, now))
  {
    var rs' := RecordDecision(rs, d, now);
    assert forall r :: r in rs' ==> r in rs || r == Last(rs');
  }

  lemma FaithfulOtherwise(rs: seq<Receipt>, t: seq<State>, t': seq<State>, bundle: bool)
    requires Faithful(rs, t) && t <= t'
    requires forall d :: DecidedAs(t', d) ==> DecidedAs(t, d)
    ensures Faithful(rs + (if bundle then [UNDECIDED_RECEIPT] else []), t')
    ensures SomeDecision(t') ==> SomeDecision(t)
  {
  }

  /** Only a caller inside its verification adds the receipt of one. */
  lemma BundlesComeFromInside(w: World, e: Event, id: SessionId)
    requires Inv(w) && StoresBundle(w, e, id)
    ensures e.a in w.actors && Inside(w.actors[e.a], id)
  {
    assert ActorOk(w, w.actors[e.a]);
  }

  /** So without intrusions no such receipt is added to a session that has been decided. */
  lemma NoBundleOnceDecided(es: seq<Event>, e: Event, id: SessionId)
    requires !Intruded(es, id) && StoresBundle(RunTo(es), e, id)
    ensures !SomeDecision(Trail(es, id))
  {
    RunKeepsInv(es);
    BundlesComeFromInside(RunTo(es), e, id);
    OneCallerInside(es, id, e.a, e.a);
    UndecidedUnderVerification(es, id);
  }

  lemma UndecidedUnderVerification(es: seq<Event>, id: SessionId)
    requires id in RunTo(es).rows && RunTo(es).rows[id].status in UNDER_VERIFICATION
    ensures !SomeDecision(Trail(es, id))
  {
    CommittedHistoryFollowsTable(es, id);
    NoDecisionYet(Trail(es, id));
  }

  lemma NoDecisionYet(t: seq<State>)
    requires IsHistory(t) && Undecided(Last(t))
    ensures !SomeDecision(t)
  {
    forall d
      ensures !DecidedAs(t, d)
    {
      UndecidedHasNoDecision(t, d);
    }
  }

  lemma RecordedNow(w: World, e: Event, id: SessionId) returns (d: Decision)
    requires Inv(w) && Records(w, e, id)
    ensures ReceiptsOf(Apply(w, e), id) == RecordDecision(ReceiptsOf(w, id), d, w.now)
    ensures e.Write? ==> FinalState(d) in Moves(w, e, id)
    ensures e.ReplayReceipt? ==> e.a in w.actors && w.actors[e.a] == ReviewLoaded(id, d, FinalState(d))
  {
    var actor := ActorOf(w, e.a);
    if e.Write? {
      d := actor.call.decision;
      assert Last(Targets(actor.call)) == FinalState(d);
    } else {
      d := actor.decision;
    }
  }

  lemma ReceiptsStep(w: World, e: Event, id: SessionId)
    requires Inv(w) && !Records(w, e, id)
    ensures ReceiptsOf(Apply(w, e), id) ==
            ReceiptsOf(w, id) + (if StoresBundle(w, e, id) then [UNDECIDED_RECEIPT] else [])
  {
  }

  lemma LoadedStep(w: World, e: Event, id: SessionId, a: ActorId)
    requires a in Apply(w, e).actors && Apply(w, e).actors[a].ReviewLoaded? && Apply(w, e).actors[a].id == id
    ensures (a in w.actors && w.actors[a] == Apply(w, e).actors[a])
         || (id in w.rows && Apply(w, e).actors[a].seen == w.rows[id].status)
  {
    if e.Read? {
      assert Apply(w, e) == AfterRead(w, e.a, e.id, e.call);
    } else if e.Write? {
      assert a != e.a || !ActorOf(w, e.a).InFlight?;
    }
  }

  lemma LoadedOkStep(w: World, e: Event, id: SessionId, t: seq<State>)
    requires Inv(w) && LoadedOk(w, id, t)
    requires id in w.rows ==> w.rows[id].status in t
    ensures LoadedOk(Apply(w, e), id, t + Moves(w, e, id))
  {
    var w' := Apply(w, e);
    forall a | a in w'.actors && w'.actors[a].ReviewLoaded? && w'.actors[a].id == id
      ensures w'.actors[a].seen in t
    {
      LoadedStep(w, e, id, a);
    }
  }

  lemma ReviewStep(es: seq<Event>, e: Event, id: SessionId)
    requires ReviewInv(es, id) && Inv(RunTo(es))
    ensures var (w, t') := (RunTo(es), Trail(es, id) + Moves(RunTo(es), e, id));
            var rs' := ReceiptsOf(Apply(w, e), id);
            && Faithful(rs', t')
            && (SomeDecision(t') ==> rs' != [] && (!Intruded(es, id) ==> Named(rs')))
  {
    var w, t, rs := RunTo(es), Trail(es, id), ReceiptsOf(RunTo(es), id);
    var t' := t + Moves(w, e, id);
    if Records(w, e, id) {
      var d := RecordedNow(w, e, id);
      assert DecidedAs(t', d);
      FaithfulAfterRecording(rs, t, t', d, w.now);
    } else {
      OnlyReviewsDecide(w, e, id);
      ReceiptsStep(w, e, id);
      FaithfulOtherwise(rs, t, t', StoresBundle(w, e, id));
      if StoresBundle(w, e, id) && !Intruded(es, id) {
        NoBundleOnceDecided(es, e, id);
      }
    }
  }

  lemma {:induction false} RunKeepsReviewInv(es: seq<Event>, id: SessionId)
    ensures ReviewInv(es, id)
  {
    if es != [] {
      var init, e := es[..|es| - 1], es[|es| - 1];
      RunKeepsReviewInv(init, id);
      RunKeepsInv(init);
      CommittedHistoryFollowsTable(init, id);
      LoadedOkStep(RunTo(init), e, id, Trail(init, id));
      ReviewStep(init, e, id);
    } else {
      assert RunTo(es) == INIT;
    }
  }

  lemma {:induction false} TrailGrows(es: seq<Event>, i: nat, id: SessionId)
    requires i <= |es|
    ensures Trail(es[..i], id) <= Trail(es, id)
    decreases |es| - i
  {
    if i == |es| {
      assert es[..i] == es;
    } else {
      assert es[..i + 1][..i] == es[..i];
      TrailGrows(es, i + 1, id);
    }
  }

  /**
   The first committed decision wins for ever: once the status is the final state of `d`, whatever reviewers
   and replays follow, the session stays there or moves on to cleanup, and no receipt ever names another decision.
   */
  lemma FirstDecisionWins(es: seq<Event>, i: nat, id: SessionId, d: Decision)
    requires i <= |es| && id in RunTo(es[..i]).rows && RunTo(es[..i]).rows[id].status == FinalState(d)
    ensures id in RunTo(es).rows && RunTo(es).rows[id].status in {FinalState(d)} + CLOSING_STATES
    ensures forall r :: r in ReceiptsOf(RunTo(es), id) ==> r.decision in {None, Some(d)}
  {
    var t := Trail(es, id);
    CommittedHistoryFollowsTable(es[..i], id);
    CommittedHistoryFollowsTable(es, id);
    TrailGrows(es, i, id);
    assert DecidedAs(t, d) by {
      assert Last(Trail(es[..i], id)) == t[|Trail(es[..i], id)| - 1];
    }
    RunKeepsReviewInv(es, id);
    forall r | r in ReceiptsOf(RunTo(es), id) && r.decision.Some?
      ensures r.decision == Some(d)
    {
      DecisionIsUnique(t, d, r.decision.value);
    }
    DecidedStays(t, d);
  }

  lemma {:induction false} DecidedStays(t: seq<State>, d: Decision)
    requires IsHistory(t) && DecidedAs(t, d)
    ensures Last(t) in {FinalState(d)} + CLOSING_STATES
  {
    if Last(t) != FinalState(d) {
      var init := t[..|t| - 1];
      assert t == init + [Last(t)];
      HistoryPrefix(t);
      DecidedStays(init, d);
    }
  }

  /** A decided session has a receipt, and every receipt of it is consistent. */
  lemma DecidedHasReceipt(es: seq<Event>, id: SessionId, d: Decision)
    requires id in RunTo(es).rows && RunTo(es).rows[id].status == FinalState(d)
    ensures DecidedAs(Trail(es, id), d)
    ensures ReceiptsOf(RunTo(es), id) != [] && forall r :: r in ReceiptsOf(RunTo(es), id) ==> ReceiptOk(r)
  {
    CommittedHistoryFollowsTable(es, id);
    RunKeepsReviewInv(es, id);
    assert DecidedAs(Trail(es, id), d);
  }

  /**
   In every run in which no call from outside ended the verification under the caller inside it, the latest receipt
   of a decided session carries the decision, with exactly its timestamp.
   */
  lemma LatestReceiptNamesDecision(es: seq<Event>, id: SessionId, d: Decision)
    requires id in RunTo(es).rows && RunTo(es).rows[id].status == FinalState(d) && !Intruded(es, id)
    ensures var rs := ReceiptsOf(RunTo(es), id);
            rs != [] && ReceiptOk(Last(rs)) && Last(rs).decision == Some(d)
  {
    DecidedHasReceipt(es, id, d);
    RunKeepsReviewInv(es, id);
    assert es[..|es|] == es;
    FirstDecisionWins(es, |es|, id, d);
  }

  /** In particular whenever all verifications go through a committed entry. */
  lemma NamedWithoutInjectedCalls(es: seq<Event>, id: SessionId, d: Decision)
    requires forall i :: 0 <= i < |es| ==> !es[i].Inject?
    requires id in RunTo(es).rows && RunTo(es).rows[id].status == FinalState(d)
    ensures Named(ReceiptsOf(RunTo(es), id)) && Last(ReceiptsOf(RunTo(es), id)).decision == Some(d)
  {
    NothingInjectedNothingIntruded(es, id);
    LatestReceiptNamesDecision(es, id, d);
  }

  lemma ReplayedDecisionIsTheFirst(es: seq<Event>, a: ActorId, id: SessionId, d: Decision)
    requires id in RunTo(es).rows && RunTo(es).rows[id].status == FinalState(d)
    requires Replays(RunTo(es), a) && ActorOf(RunTo(es), a).id == id
    ensures ActorOf(RunTo(es), a).decision == d
  {
    var t, actor := Trail(es, id), ActorOf(RunTo(es), a);
    RunKeepsReviewInv(es, id);
    CommittedHistoryFollowsTable(es, id);
    assert actor.seen in t;
    assert DecidedAs(t, d) && DecidedAs(t, actor.decision);
    DecisionIsUnique(t, d, actor.decision);
  }

  /** Repeating a decision changes no row, adds no receipt to a decided session and puts the decision on the latest. */
  lemma ReplayChangesNoState(es: seq<Event>, a: ActorId, id: SessionId, d: Decision)
    requires id in RunTo(es).rows && RunTo(es).rows[id].status == FinalState(d)
    requires Replays(RunTo(es), a) && ActorOf(RunTo(es), a).id == id
    ensures var w, w' := RunTo(es), Apply(RunTo(es), ReplayReceipt(a));
            && w'.rows == w.rows
            && |ReceiptsOf(w', id)| == |ReceiptsOf(w, id)|
            && Last(ReceiptsOf(w', id)).decision == Some(d)
  {
    ReplayedDecisionIsTheFirst(es, a, id, d);
    DecidedHasReceipt(es, id, d);
  }

  // ---- Late workers ---------------------------------------------------------------------------

  ghost predicate SomeWorkerInside(w: World, id: SessionId) {
    exists a :: a in w.actors && WorkerInside(w.actors[a], id)
  }

  /** A worker still inside the verification of a decided session has been intruded upon. */
  lemma LateWorkerMeansIntrusion(es: seq<Event>, id: SessionId)
    requires id in RunTo(es).rows && RunTo(es).rows[id].status !in UNDER_VERIFICATION
    requires SomeWorkerInside(RunTo(es), id)
    ensures Intruded(es, id)
  {
    var a :| a in RunTo(es).actors && WorkerInside(RunTo(es).actors[a], id);
    if !Intruded(es, id) {
      OneCallerInside(es, id, a, a);
    }
  }

  /** A worker inside the verification that has a bundle in its open transaction or can still store one. */
  predicate CanStore(actor: Actor, id: SessionId) {
    match actor
    case Processing(id', origin, stage) => id' == id && origin.ByWorker? && (stage.Working? || stage.stored)
    case InFlight(id', _, call) => id' == id && Ends(call) && call.origin.ByWorker? && call.bundled
    case _ => false
  }

  ghost predicate SomeoneCanStore(w: World, id: SessionId) {
    exists a :: a in w.actors && CanStore(w.actors[a], id)
  }

  /** A step leaves a caller able to store a bundle only if it was before, or has just entered. */
  lemma CanStoreStep(w: World, e: Event, id: SessionId, a: ActorId)
    requires a in Apply(w, e).actors && CanStore(Apply(w, e).actors[a], id)
    ensures || (a in w.actors && CanStore(w.actors[a], id))
            || (CommitsEntry(w, e, id) && a == e.a)
  {
  }

  /** Nobody new can store a bundle for a session that is past verification. */
  lemma NobodyNewCanStore(w: World, e: Event, id: SessionId)
    requires Inv(w) && id in w.rows && w.rows[id].status in PAST_VERIFYING && !SomeoneCanStore(w, id)
    ensures !SomeoneCanStore(Apply(w, e), id)
  {
    if CommitsEntry(w, e, id) {
      EntryIsFromOutside(w, e, id);
    }
    if SomeoneCanStore(Apply(w, e), id) {
      var a :| a in Apply(w, e).actors && CanStore(Apply(w, e).actors[a], id);
      CanStoreStep(w, e, id, a);
      assert false;
    }
  }

  lemma EntryIsFromOutside(w: World, e: Event, id: SessionId)
    requires Inv(w) && CommitsEntry(w, e, id)
    ensures w.rows[id].status !in PAST_VERIFYING
  {
    assert ActorOk(w, w.actors[e.a]);
  }

  /** The session is decided as `d`, and its latest receipt says so. */
  ghost predicate NamedAs(w: World, id: SessionId, d: Decision) {
    && id in w.rows && w.rows[id].status == FinalState(d)
    && ReceiptsOf(w, id) != [] && Last(ReceiptsOf(w, id)).decision == Some(d)
  }

  /** While no worker can store a bundle, a step that leaves the session decided leaves its latest receipt named. */
  lemma NamedStep(es: seq<Event>, e: Event, id: SessionId, d: Decision)
    requires NamedAs(RunTo(es), id, d) && !SomeoneCanStore(RunTo(es), id)
    requires id in Apply(RunTo(es), e).rows && Apply(RunTo(es), e).rows[id].status == FinalState(d)
    ensures NamedAs(Apply(RunTo(es), e), id, d) && !SomeoneCanStore(Apply(RunTo(es), e), id)
  {
    var w := RunTo(es);
    RunKeepsInv(es);
    NobodyNewCanStore(w, e, id);
    if Records(w, e, id) {
      var d' := RecordedNow(w, e, id);
      RecordsTheDecision(es, e, id, d, d');
    } else {
      ReceiptsStep(w, e, id);
      if StoresBundle(w, e, id) {
        NoLateBundle(w, e, id, d);
      }
    }
  }

  /** What is recorded on a decided session is its decision. */
  lemma RecordsTheDecision(es: seq<Event>, e: Event, id: SessionId, d: Decision, d': Decision)
    requires id in RunTo(es).rows && RunTo(es).rows[id].status == FinalState(d) && Records(RunTo(es), e, id)
    requires e.Write? ==> FinalState(d') in Moves(RunTo(es), e, id)
    requires e.ReplayReceipt? ==>
               e.a in RunTo(es).actors && RunTo(es).actors[e.a] == ReviewLoaded(id, d', FinalState(d'))
    ensures d' == d
  {
    if e.ReplayReceipt? {
      ReplayedDecisionIsTheFirst(es, e.a, id, d);
    } else {
      RunKeepsInv(es);
      assert ActorOk(RunTo(es), RunTo(es).actors[e.a]);
    }
  }

  /** On a decided session only a worker inside could add the receipt of a verification. */
  lemma NoLateBundle(w: World, e: Event, id: SessionId, d: Decision)
    requires Inv(w) && id in w.rows && w.rows[id].status == FinalState(d) && StoresBundle(w, e, id)
    requires Apply(w, e).rows[id].status == FinalState(d)
    ensures SomeoneCanStore(w, id)
  {
    BundlesComeFromInside(w, e, id);
    assert ActorOk(w, w.actors[e.a]);
  }

  lemma {:induction false} StaysNamed(es: seq<Event>, more: seq<Event>, id: SessionId, d: Decision)
    requires NamedAs(RunTo(es), id, d) && !SomeoneCanStore(RunTo(es), id)
    requires id in RunTo(es + more).rows && RunTo(es + more).rows[id].status == FinalState(d)
    ensures NamedAs(RunTo(es + more), id, d) && !SomeoneCanStore(RunTo(es + more), id)
    decreases |more|
  {
    if more == [] {
      assert es + more == es;
    } else {
      var init, e := more[..|more| - 1], more[|more| - 1];
      RunAppend(es, more);
      StillDecided(es, init, e, id, d);
      StaysNamed(es, init, id, d);
      NamedStep(es + init, e, id, d);
    }
  }

  /** A session that is decided before and after has been decided in between. */
  lemma StillDecided(es: seq<Event>, init: seq<Event>, e: Event, id: SessionId, d: Decision)
    requires id in RunTo(es).rows && RunTo(es).rows[id].status == FinalState(d)
    requires id in Apply(RunTo(es + init), e).rows && Apply(RunTo(es + init), e).rows[id].status == FinalState(d)
    ensures id in RunTo(es + init).rows && RunTo(es + init).rows[id].status == FinalState(d)
  {
    assert (es + init)[..|es|] == es;
    FirstDecisionWins(es + init, |es|, id, d);
    RunKeepsInv(es + init);
    StepKeepsRegions(RunTo(es + init), e);
  }

  lemma EndingIsInvalid(call: Call, s: State)
    requires Ends(call) && WellFormed(call) && s in HUMAN_FINAL_STATES
    ensures !ValidTransition(s, Targets(call)[0])
  {
  }

  lemma EndingIsNotRead(w: World, a: ActorId, id: SessionId, call: Call)
    requires id in w.rows && w.rows[id].status in HUMAN_FINAL_STATES
    requires MayCall(ActorOf(w, a), id, call) && WellFormed(call) && Ends(call)
    ensures Apply(w, Read(a, id, call)) == w.(actors := w.actors[a := AfterFailure(id, call)])
  {
    EndingIsInvalid(call, w.rows[id].status);
  }

  lemma EndingIsNotWritten(w: World, a: ActorId, id: SessionId)
    requires Inv(w) && id in w.rows && w.rows[id].status in HUMAN_FINAL_STATES
    requires a in w.actors && w.actors[a].InFlight? && w.actors[a].id == id && Ends(w.actors[a].call)
    ensures Apply(w, Write(a)) == w.(actors := w.actors[a := AfterFailure(id, w.actors[a].call)])
  {
    assert ActorOk(w, w.actors[a]);
    EndingIsInvalid(w.actors[a].call, w.rows[id].status);
  }

  ghost predicate HasDecision(w: World, id: SessionId) {
    id in w.rows && w.rows[id].status in HUMAN_FINAL_STATES
  }

  /** After `more` the bundle is stored, and no row has changed. */
  ghost predicate StoresBy(es: seq<Event>, more: seq<Event>, id: SessionId) {
    RunTo(es + more).rows == RunTo(es).rows && RunTo(es + more).receipts == Bundled(RunTo(es), id)
  }

  lemma StoresAfter(es: seq<Event>, e: Event, rest: seq<Event>, id: SessionId)
    requires RunTo(es + [e]) == RunTo(es).(actors := RunTo(es + [e]).actors) && StoresBy(es + [e], rest, id)
    ensures StoresBy(es, [e] + rest, id)
  {
    Regroup(es, e, rest);
  }

  /** A worker left with its bundle stores it when its job is marked; one that must fail is refused first. */
  lemma StoresAtTheEnd(es: seq<Event>, a: ActorId, id: SessionId, worker: WorkerId, stage: Stage)
    returns (more: seq<Event>)
    requires HasDecision(RunTo(es), id) && ActorOf(RunTo(es), a) == Processing(id, ByWorker(worker), stage)
    requires !stage.Working? && stage.stored
    ensures StoresBy(es, more, id)
    decreases stage.MustFail?
  {
    if stage.Leaving? {
      more := [StoreBundle(a)];
      RunNext(es, StoreBundle(a));
    } else {
      var call := Fail(ByWorker(worker), FailedRetriable, true);
      RunNext(es, Read(a, id, call));
      EndingIsNotRead(RunTo(es), a, id, call);
      var rest := StoresAtTheEnd(es + [Read(a, id, call)], a, id, worker, Leaving(true));
      StoresAfter(es, Read(a, id, call), rest, id);
      more := [Read(a, id, call)] + rest;
    }
  }

  /** A worker that can store its bundle can do so after the decision, without any other change. */
  lemma StoresLate(es: seq<Event>, a: ActorId, id: SessionId) returns (more: seq<Event>)
    requires HasDecision(RunTo(es), id) && a in RunTo(es).actors && CanStore(RunTo(es).actors[a], id)
    ensures StoresBy(es, more, id)
  {
    var actor := RunTo(es).actors[a];
    if actor.InFlight? {
      RunKeepsInv(es);
      RunNext(es, Write(a));
      EndingIsNotWritten(RunTo(es), a, id);
      var rest := StoresAtTheEnd(es + [Write(a)], a, id, actor.call.origin.worker, AfterFailure(id, actor.call).stage);
      StoresAfter(es, Write(a), rest, id);
      more := [Write(a)] + rest;
    } else if actor.stage.Working? {
      var call := Complete(actor.origin, PendingHumanReview, "", true);
      RunNext(es, Read(a, id, call));
      EndingIsNotRead(RunTo(es), a, id, call);
      var rest := StoresAtTheEnd(es + [Read(a, id, call)], a, id, actor.origin.worker, MustFail(true));
      StoresAfter(es, Read(a, id, call), rest, id);
      more := [Read(a, id, call)] + rest;
    } else {
      more := StoresAtTheEnd(es, a, id, actor.origin.worker, actor.stage);
    }
  }

  /**
   The latest receipt of a decided session names the decision in every continuation of a run exactly if no worker
   that can still store its bundle is inside the session's verification: its bundle is committed when its job fails.
   */
  lemma StaysNamedIff(es: seq<Event>, id: SessionId, d: Decision)
    requires NamedAs(RunTo(es), id, d)
    ensures (forall more: seq<Event> ::
               id in RunTo(es + more).rows && RunTo(es + more).rows[id].status == FinalState(d) ==>
                 NamedAs(RunTo(es + more), id, d))
            <==> !SomeoneCanStore(RunTo(es), id)
  {
    if SomeoneCanStore(RunTo(es), id) {
      var a :| a in RunTo(es).actors && CanStore(RunTo(es).actors[a], id);
      var more := StoresLate(es, a, id);
      assert !NamedAs(RunTo(es + more), id, d);
    } else {
      forall more: seq<Event> | id in RunTo(es + more).rows && RunTo(es + more).rows[id].status == FinalState(d)
        ensures NamedAs(RunTo(es + more), id, d)
      {
        StaysNamed(es, more, id, d);
      }
    }
  }

  // ---- Uploads --------------------------------------------------------------------------------

  function UsedTokens(w: World, id: SessionId): set<TokenId> {
    set t | t in w.tokens && w.tokens[t].session == id && w.tokens[t].used
  }

  predicate CommitsUpload(w: World, e: Event, id: SessionId) {
    e.Write? && Commits(w, e.a) && ActorOf(w, e.a).id == id && ActorOf(w, e.a).call.Upload?
  }

  /** How many uploads of session `id` have committed. */
  function Uploads(es: seq<Event>, id: SessionId): nat {
    if es == [] then 0
    else Uploads(es[..|es| - 1], id) + (if CommitsUpload(RunTo(es[..|es| - 1]), es[|es| - 1], id) then 1 else 0)
  }

  lemma {:induction false} NothingUploadsTwice(t: seq<State>)
    requires IsHistory(t)
    ensures Last(t) in {Created, UploadPending} ==> UploadedPendingReview !in t
  {
    if |t| > 1 {
      HistoryPrefix(t);
      NothingUploadsTwice(t[..|t| - 1]);
      assert t == t[..|t| - 1] + [Last(t)];
    }
  }

  lemma TokensUnused(w: World, e: Event, id: SessionId, t: TokenId)
    requires Inv(w) && !CommitsUpload(w, e, id)
    ensures t in UsedTokens(Apply(w, e), id) <==> t in UsedTokens(w, id)
  {
    if e.Write? && Commits(w, e.a) {
      assert ActorOk(w, w.actors[e.a]);
    }
  }

  lemma UsedTokensStep(w: World, e: Event, id: SessionId)
    requires Inv(w)
    ensures !CommitsUpload(w, e, id) ==> UsedTokens(Apply(w, e), id) == UsedTokens(w, id)
    ensures CommitsUpload(w, e, id) ==>
              UsedTokens(Apply(w, e), id) == UsedTokens(w, id) + {ActorOf(w, e.a).call.token}
  {
    if CommitsUpload(w, e, id) {
      assert ActorOk(w, w.actors[e.a]);
    } else {
      forall t
        ensures t in UsedTokens(Apply(w, e), id) <==> t in UsedTokens(w, id)
      {
        TokensUnused(w, e, id, t);
      }
    }
  }

  lemma UploadMoves(w: World, e: Event, id: SessionId)
    requires Inv(w)
    ensures CommitsUpload(w, e, id) ==>
              id in w.rows && w.rows[id].status == UploadPending && Moves(w, e, id) == [UploadedPendingReview]
    ensures !CommitsUpload(w, e, id) ==> UploadedPendingReview !in Moves(w, e, id)
  {
    if e.Write? && Commits(w, e.a) {
      assert ActorOk(w, w.actors[e.a]);
    }
  }

  /**
   However many tokens a session has and however their uses race, at most one upload commits; it has committed
   exactly when the session has been UPLOADED_PENDING_REVIEW, and then exactly one token of the session is used.
   */
  lemma {:induction false} AtMostOneUpload(es: seq<Event>, id: SessionId)
    ensures Uploads(es, id) <= 1
    ensures Uploads(es, id) == 1 <==> UploadedPendingReview in Trail(es, id)
    ensures |UsedTokens(RunTo(es), id)| == Uploads(es, id)
  {
    if es != [] {
      var init, e := es[..|es| - 1], es[|es| - 1];
      AtMostOneUpload(init, id);
      RunKeepsInv(init);
      UsedTokensStep(RunTo(init), e, id);
      UploadMoves(RunTo(init), e, id);
      if CommitsUpload(RunTo(init), e, id) {
        CommittedHistoryFollowsTable(init, id);
        NothingUploadsTwice(Trail(init, id));
        assert UsedTokens(RunTo(init), id) == {};
      }
    } else {
      assert UsedTokens(INIT, id) == {};
    }
  }
}
