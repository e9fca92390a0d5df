/** Who is inside the verification of a session, and who can end it, over every run of SessionProtocol. */
module SessionHolding {
  import opened Prelude
  import opened StateMachine
  import opened SessionTable
  import opened SessionProtocol
  import opened SessionSafety

  /** The statuses between entering VERIFYING and the exit of the caller that entered it. */
  const UNDER_VERIFICATION: set<State> := {Verifying, AbandonedVerifying}

  // ---- How VERIFYING was entered --------------------------------------------------------------

  /** `e` commits an entry of session `id` into VERIFYING. */
  predicate CommitsEntry(w: World, e: Event, id: SessionId) {
    && e.Write? && Commits(w, e.a) && ActorOf(w, e.a).id == id
    && (ActorOf(w, e.a).call.Run? || ActorOf(w, e.a).call.Acquire?)
  }

  /** The last call of a run that took session `id` into VERIFYING. */
  function LastEntry(es: seq<Event>, id: SessionId): Option<Call> {
    if es == [] then None
    else
      var w, e := RunTo(es[..|es| - 1]), es[|es| - 1];
      if CommitsEntry(w, e, id) then Some(ActorOf(w, e.a).call) else LastEntry(es[..|es| - 1], id)
  }

  /** The lease of a VERIFYING row is the one its last entry set. */
  ghost predicate LeaseMatches(w: World, id: SessionId, entry: Option<Call>) {
    id in w.rows && w.rows[id].status == Verifying ==>
      match entry
      case Some(Run) => w.rows[id].lease == None
      case Some(Acquire(worker)) => w.rows[id].lease == Some(worker)
      case _ => false
  }

  predicate CommitsWrite(w: World, e: Event) {
    e.Write? && Commits(w, e.a)
  }

  /** Without a committed write a row keeps its status and lease, unless it is swept. */
  lemma QuietRow(w: World, e: Event, id: SessionId)
    requires !CommitsWrite(w, e) && id in w.rows
    ensures id in Apply(w, e).rows
    ensures var (row, row') := (w.rows[id], Apply(w, e).rows[id]);
            || (row'.status == row.status && row'.lease == row.lease)
            || (row.status == Verifying && row'.status == AbandonedVerifying && row'.lease == None)
  {
  }

  /** Without a committed write no row appears but a new one. */
  lemma QuietRows(w: World, e: Event, id: SessionId)
    requires !CommitsWrite(w, e) && id !in w.rows
    ensures id in Apply(w, e).rows ==> Apply(w, e).rows[id] == NEW_ROW
  {
  }

  lemma WrittenRow(w: World, a: ActorId)
    requires Commits(w, a)
    ensures var (actor, call) := (ActorOf(w, a), ActorOf(w, a).call);
            && Apply(w, Write(a)).rows ==
               w.rows[actor.id := Written(w.rows[actor.id], Last(Targets(call)), ValuesOf(call))]
            && Apply(w, Write(a)).actors == w.actors[a := AfterSuccess(actor.id, call)]
  {
  }

  lemma LeaseMatchesStep(w: World, e: Event, id: SessionId, entry: Option<Call>)
    requires Inv(w) && LeaseMatches(w, id, entry)
    ensures LeaseMatches(Apply(w, e), id, if CommitsEntry(w, e, id) then Some(ActorOf(w, e.a).call) else entry)
  {
    if CommitsWrite(w, e) {
      assert ActorOk(w, w.actors[e.a]);
      var call := ActorOf(w, e.a).call;
      WrittenRow(w, e.a);
      assert Last(Targets(call)) == Verifying <==> call.Run? || call.Acquire?;
    } else if id in w.rows {
      QuietRow(w, e, id);
    } else {
      QuietRows(w, e, id);
    }
  }

  lemma {:induction false} RunKeepsLeaseMatch(es: seq<Event>, id: SessionId)
    ensures LeaseMatches(RunTo(es), id, LastEntry(es, id))
  {
    if es != [] {
      var init := es[..|es| - 1];
      RunKeepsLeaseMatch(init, id);
      RunKeepsInv(init);
      LeaseMatchesStep(RunTo(init), es[|es| - 1], id, LastEntry(init, id));
    }
  }

  /**
   A session holds a lease exactly if it is VERIFYING and was taken there by an acquisition and not by the /run
   route; the lease is then that of the worker that acquired it last.
   */
  lemma LeasedIffAcquired(es: seq<Event>, id: SessionId)
    requires id in RunTo(es).rows
    ensures var row := RunTo(es).rows[id];
            && (row.lease.Some? <==>
                row.status == Verifying && LastEntry(es, id).Some? && LastEntry(es, id).value.Acquire?)
            && (row.lease.Some? ==> LastEntry(es, id) == Some(Acquire(row.lease.value)))
            && (row.status == Verifying && row.lease == None ==> LastEntry(es, id) == Some(Run))
  {
    RunKeepsLeaseMatch(es, id);
    RunKeepsInv(es);
  }

  // ---- Who is inside --------------------------------------------------------------------------

  ghost predicate SomeoneInside(w: World, id: SessionId) {
    exists a :: a in w.actors && Inside(w.actors[a], id)
  }

  /** A call from outside ends the verification of a session while the caller that took the session is still inside. */
  ghost predicate Intrudes(w: World, e: Event, id: SessionId) {
    && e.Write? && Commits(w, e.a) && ActorOf(w, e.a).id == id
    && Ends(ActorOf(w, e.a).call) && ActorOf(w, e.a).call.origin == Injected
    && SomeoneInside(w, id)
  }

  ghost predicate Intruded(es: seq<Event>, id: SessionId) {
    es != [] && (Intruded(es[..|es| - 1], id) || Intrudes(RunTo(es[..|es| - 1]), es[|es| - 1], id))
  }

  /** What the caller inside holds on to: a worker its lease, the /run route none. */
  predicate HoldsAs(row: Row, origin: Origin) {
    match origin
    case ByRoute => row.lease == None
    case ByWorker(worker) => row.lease == Some(worker)
    case Injected => true
  }

  /** At most one caller is inside, only while the session is under verification, and it holds what it took. */
  ghost predicate Solo(w: World, id: SessionId) {
    && (forall a, b :: a in w.actors && b in w.actors && Inside(w.actors[a], id) && Inside(w.actors[b], id) ==> a == b)
    && (forall a :: a in w.actors && Inside(w.actors[a], id) ==>
          && id in w.rows && w.rows[id].status in UNDER_VERIFICATION
          && (w.rows[id].status == Verifying ==> HoldsAs(w.rows[id], Verifies(w.actors[a], id).value)))
  }

  /** A step brings nobody inside but the caller of a committed entry, and changes nobody's origin. */
  lemma InsideStep(w: World, e: Event, id: SessionId, a: ActorId)
    requires a in Apply(w, e).actors && Inside(Apply(w, e).actors[a], id)
    ensures || (a in w.actors && Verifies(w.actors[a], id) == Verifies(Apply(w, e).actors[a], id))
            || (CommitsEntry(w, e, id) && a == e.a)
  {
  }

  /** A committed entry finds nobody inside, and leaves its caller inside holding what it took. */
  lemma EntryFindsNobody(w: World, e: Event, id: SessionId)
    requires Inv(w) && Solo(w, id) && CommitsEntry(w, e, id)
    ensures !SomeoneInside(w, id)
    ensures var (w', a) := (Apply(w, e), e.a);
            && id in w'.rows && a in w'.actors && w'.rows[id].status == Verifying && Inside(w'.actors[a], id)
            && HoldsAs(w'.rows[id], Verifies(w'.actors[a], id).value)
  {
    assert ActorOk(w, w.actors[e.a]);
  }

  /** Only an ending takes a session out of verification, and its caller is then no longer inside. */
  lemma LeavingVerification(w: World, e: Event, id: SessionId)
    requires Inv(w) && id in w.rows && w.rows[id].status in UNDER_VERIFICATION
    requires Apply(w, e).rows[id].status !in UNDER_VERIFICATION
    ensures e.Write? && Commits(w, e.a) && ActorOf(w, e.a).id == id && Ends(ActorOf(w, e.a).call)
    ensures e.a in Apply(w, e).actors && Apply(w, e).actors[e.a] == Idle
  {
    if CommitsWrite(w, e) {
      assert ActorOk(w, w.actors[e.a]);
      WrittenRow(w, e.a);
    } else {
      QuietRow(w, e, id);
    }
  }

  /** While a session stays under verification its lease changes only by an entry. */
  lemma LeaseStays(w: World, e: Event, id: SessionId)
    requires Inv(w) && id in w.rows && w.rows[id].status in UNDER_VERIFICATION && !CommitsEntry(w, e, id)
    requires Apply(w, e).rows[id].status == Verifying
    ensures w.rows[id].status == Verifying && Apply(w, e).rows[id].lease == w.rows[id].lease
  {
    if CommitsWrite(w, e) {
      assert ActorOk(w, w.actors[e.a]);
      WrittenRow(w, e.a);
    } else {
      QuietRow(w, e, id);
    }
  }

  lemma SoloStep(w: World, e: Event, id: SessionId)
    requires Inv(w) && Solo(w, id) && !Intrudes(w, e, id)
    ensures Solo(Apply(w, e), id)
  {
    var w' := Apply(w, e);
    if CommitsEntry(w, e, id) {
      EntryFindsNobody(w, e, id);
      forall a | a in w'.actors && Inside(w'.actors[a], id)
        ensures a == e.a
      {
        InsideStep(w, e, id, a);
      }
    } else {
      forall a | a in w'.actors && Inside(w'.actors[a], id)
        ensures a in w.actors && Verifies(w.actors[a], id) == Verifies(w'.actors[a], id)
      {
        InsideStep(w, e, id, a);
      }
      forall a | a in w'.actors && Inside(w'.actors[a], id)
        ensures id in w'.rows && w'.rows[id].status in UNDER_VERIFICATION
        ensures w'.rows[id].status == Verifying ==> HoldsAs(w'.rows[id], Verifies(w'.actors[a], id).value)
      {
        StaysInside(w, e, id, a);
      }
    }
  }

  lemma OnlyTheOneInsideEnds(w: World, e: Event, id: SessionId, a: ActorId)
    requires Solo(w, id) && !Intrudes(w, e, id) && a in w.actors && Inside(w.actors[a], id)
    requires e.Write? && Commits(w, e.a) && ActorOf(w, e.a).id == id && Ends(ActorOf(w, e.a).call)
    ensures e.a == a
  {
    assert SomeoneInside(w, id);
    assert Inside(w.actors[e.a], id);
  }

  /** While a caller is inside, nothing but its own ending takes the session out of verification. */
  lemma InsideKeepsVerification(w: World, e: Event, id: SessionId, a: ActorId)
    requires Inv(w) && Solo(w, id) && !Intrudes(w, e, id)
    requires a in w.actors && a in Apply(w, e).actors && Inside(w.actors[a], id)
    requires Verifies(w.actors[a], id) == Verifies(Apply(w, e).actors[a], id)
    ensures id in Apply(w, e).rows && Apply(w, e).rows[id].status in UNDER_VERIFICATION
  {
    StepFollowsTable(w, e, id);
    if Apply(w, e).rows[id].status !in UNDER_VERIFICATION {
      LeavingVerification(w, e, id);
      OnlyTheOneInsideEnds(w, e, id, a);
      assert false;
    }
  }

  lemma StaysInside(w: World, e: Event, id: SessionId, a: ActorId)
    requires Inv(w) && Solo(w, id) && !Intrudes(w, e, id) && !CommitsEntry(w, e, id)
    requires a in w.actors && a in Apply(w, e).actors && Inside(w.actors[a], id)
    requires Verifies(w.actors[a], id) == Verifies(Apply(w, e).actors[a], id)
    ensures var rows' := Apply(w, e).rows;
            && id in rows' && rows'[id].status in UNDER_VERIFICATION
            && (rows'[id].status == Verifying ==> HoldsAs(rows'[id], Verifies(w.actors[a], id).value))
  {
    InsideKeepsVerification(w, e, id, a);
    if Apply(w, e).rows[id].status == Verifying {
      LeaseStays(w, e, id);
    }
  }

  lemma {:induction false} RunKeepsSolo(es: seq<Event>, id: SessionId)
    requires !Intruded(es, id)
    ensures Solo(RunTo(es), id)
  {
    if es != [] {
      var init := es[..|es| - 1];
      RunKeepsSolo(init, id);
      RunKeepsInv(init);
      SoloStep(RunTo(init), es[|es| - 1], id);
    }
  }

  /**
   Without intrusions at most one caller is inside the verification of a session, only while the session is
   VERIFYING or abandoned, and while it is VERIFYING a worker inside still holds the lease.
   */
  lemma OneCallerInside(es: seq<Event>, id: SessionId, a: ActorId, b: ActorId)
    requires !Intruded(es, id)
    requires a in RunTo(es).actors && b in RunTo(es).actors
    requires Inside(RunTo(es).actors[a], id) && Inside(RunTo(es).actors[b], id)
    ensures a == b && id in RunTo(es).rows && RunTo(es).rows[id].status in UNDER_VERIFICATION
    ensures RunTo(es).rows[id].status == Verifying ==>
              HoldsAs(RunTo(es).rows[id], Verifies(RunTo(es).actors[a], id).value)
  {
    RunKeepsSolo(es, id);
  }

  // ---- Who ends a lease -----------------------------------------------------------------------

  /** `e` ends the lease of `worker` on session `id`, and is neither a sweep nor that worker's own ending. */
  predicate EndedByAnother(w: World, e: Event, id: SessionId, worker: WorkerId) {
    && id in w.rows && w.rows[id].lease == Some(worker)
    && id in Apply(w, e).rows && Apply(w, e).rows[id].lease != Some(worker)
    && !e.Sweep?
    && !(e.Write? && Verifies(ActorOf(w, e.a), id) == Some(ByWorker(worker)))
  }

  /** This caller has read VERIFYING for session `id` and is about to end it on behalf of `origin`. */
  predicate AboutToEnd(actor: Actor, id: SessionId, origin: Origin) {
    actor.InFlight? && actor.id == id && actor.observed == Verifying && Ends(actor.call) && actor.call.origin == origin
  }

  lemma EndingIsCommitted(w: World, e: Event, id: SessionId, worker: WorkerId)
    requires Inv(w) && EndedByAnother(w, e, id, worker)
    ensures e.Write? && e.a in w.actors && AboutToEnd(w.actors[e.a], id, w.actors[e.a].call.origin)
    ensures w.actors[e.a].call.origin != ByWorker(worker)
  {
    if e.Write? && Commits(w, e.a) {
      assert ActorOk(w, w.actors[e.a]);
      OnlyProcessingExits(w, e.a);
    }
  }

  /**
   A leased session can be ended by someone other than its holder or the sweep exactly while an ending issued by
   someone else, who read VERIFYING, is in flight.
   */
  lemma EndedByAnotherIff(es: seq<Event>, id: SessionId, worker: WorkerId)
    requires id in RunTo(es).rows && RunTo(es).rows[id].lease == Some(worker)
    ensures (exists e :: EndedByAnother(RunTo(es), e, id, worker)) <==>
            (exists a, origin :: a in RunTo(es).actors && origin != ByWorker(worker)
                                 && AboutToEnd(RunTo(es).actors[a], id, origin))
  {
    var w := RunTo(es);
    RunKeepsInv(es);
    if e :| EndedByAnother(w, e, id, worker) {
      EndingIsCommitted(w, e, id, worker);
    }
    if a, origin :| a in w.actors && origin != ByWorker(worker) && AboutToEnd(w.actors[a], id, origin) {
      AboutToEndSucceeds(w, a, origin, id, worker);
    }
  }

  lemma AboutToEndSucceeds(w: World, a: ActorId, origin: Origin, id: SessionId, worker: WorkerId)
    requires Inv(w) && id in w.rows && w.rows[id].lease == Some(worker)
    requires a in w.actors && origin != ByWorker(worker) && AboutToEnd(w.actors[a], id, origin)
    ensures EndedByAnother(w, Write(a), id, worker)
  {
    assert Commits(w, a);
    assert Apply(w, Write(a)).rows[id].lease == None;
  }

  /** Without intrusions so far, only a call injected from outside can be the one in flight. */
  lemma OnlyInjectedCallsEndALease(es: seq<Event>, id: SessionId, worker: WorkerId)
    requires !Intruded(es, id) && id in RunTo(es).rows && RunTo(es).rows[id].lease == Some(worker)
    ensures (exists e :: EndedByAnother(RunTo(es), e, id, worker)) <==>
            (exists a :: a in RunTo(es).actors && AboutToEnd(RunTo(es).actors[a], id, Injected))
  {
    EndedByAnotherIff(es, id, worker);
    RunKeepsSolo(es, id);
    RunKeepsInv(es);
  }

  lemma NothingInjectedNothingIntruded(es: seq<Event>, id: SessionId)
    requires forall i :: 0 <= i < |es| ==> !es[i].Inject?
    ensures !Intruded(es, id)
    ensures forall a :: a in RunTo(es).actors ==> Verifies(RunTo(es).actors[a], id) != Some(Injected)
  {
    if es != [] {
      var init, e := es[..|es| - 1], es[|es| - 1];
      assert forall i :: 0 <= i < |init| ==> init[i] == es[i];
      NothingInjectedNothingIntruded(init, id);
      forall a | a in Apply(RunTo(init), e).actors
        ensures Verifies(Apply(RunTo(init), e).actors[a], id) != Some(Injected)
      {
        NobodyInjected(RunTo(init), e, id, a);
      }
    }
  }

  lemma NobodyInjected(w: World, e: Event, id: SessionId, a: ActorId)
    requires !e.Inject? && a in Apply(w, e).actors
    requires forall b :: b in w.actors ==> Verifies(w.actors[b], id) != Some(Injected)
    ensures Verifies(Apply(w, e).actors[a], id) != Some(Injected)
  {
  }

  /** With every caller going through a committed entry, a lease is ended only by its holder or the sweep. */
  lemma HolderOrSweepEndsLease(es: seq<Event>, e: Event, id: SessionId, worker: WorkerId)
    requires forall i :: 0 <= i < |es| ==> !es[i].Inject?
    requires id in RunTo(es).rows && RunTo(es).rows[id].lease == Some(worker)
    ensures !EndedByAnother(RunTo(es), e, id, worker)
  {
    NothingInjectedNothingIntruded(es, id);
    OnlyInjectedCallsEndALease(es, id, worker);
    assert forall a :: a in RunTo(es).actors && AboutToEnd(RunTo(es).actors[a], id, Injected) ==>
             Verifies(RunTo(es).actors[a], id) == Some(Injected);
  }
}
