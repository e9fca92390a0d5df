/** When a session whose verification was abandoned can still get away from ABANDONED_VERIFYING. */
module SessionStranding {
  import opened Prelude
  import opened StateMachine
  import opened SessionTable
  import opened SessionProtocol
  import opened SessionSafety
  import opened SessionHolding

  /**
   This caller can still fail session `id` once it is abandoned: it verifies the session and has not been refused by
   fail_processing, nor read a status before the abandonment for it.
   */
  predicate CanFail(actor: Actor, id: SessionId) {
    match actor
    case Processing(id', _, stage) => id' == id && !stage.Leaving?
    case InFlight(id', observed, call) =>
      id' == id && (call.Complete? || (call.Fail? && observed == AbandonedVerifying))
    case _ => false
  }

  ghost predicate SomeoneCanFail(w: World, id: SessionId) {
    exists a :: a in w.actors && CanFail(w.actors[a], id)
  }

  predicate StatusIs(w: World, id: SessionId, status: State) {
    id in w.rows && w.rows[id].status == status
  }

  // ---- Nobody left: stranded ------------------------------------------------------------------

  /** A step leaves a caller able to fail the session only if it was before, has just entered, or is injected. */
  lemma CanFailStep(w: World, e: Event, id: SessionId, a: ActorId)
    requires !e.Inject? && a in Apply(w, e).actors && CanFail(Apply(w, e).actors[a], id)
    ensures (a in w.actors && CanFail(w.actors[a], id)) || CommitsEntry(w, e, id)
  {
  }

  lemma NoEntryWhenAbandoned(w: World, e: Event, id: SessionId)
    requires Inv(w) && StatusIs(w, id, AbandonedVerifying)
    ensures !CommitsEntry(w, e, id)
  {
    if e.Write? && e.a in w.actors {
      assert ActorOk(w, w.actors[e.a]);
    }
  }

  /** A write that takes the session out of ABANDONED_VERIFYING is that of a caller that could fail it. */
  lemma LeavesByFailing(w: World, e: Event, id: SessionId)
    requires Inv(w) && StatusIs(w, id, AbandonedVerifying) && !StatusIs(Apply(w, e), id, AbandonedVerifying)
    ensures SomeoneCanFail(w, id)
  {
    if CommitsWrite(w, e) {
      assert ActorOk(w, w.actors[e.a]);
      WrittenRow(w, e.a);
      assert CanFail(w.actors[e.a], id);
    } else {
      QuietRow(w, e, id);
    }
  }

  lemma StrandedStep(w: World, e: Event, id: SessionId)
    requires Inv(w) && StatusIs(w, id, AbandonedVerifying) && !SomeoneCanFail(w, id) && !e.Inject?
    ensures StatusIs(Apply(w, e), id, AbandonedVerifying) && !SomeoneCanFail(Apply(w, e), id)
  {
    if !StatusIs(Apply(w, e), id, AbandonedVerifying) {
      LeavesByFailing(w, e, id);
    }
    NoEntryWhenAbandoned(w, e, id);
    if SomeoneCanFail(Apply(w, e), id) {
      var a :| a in Apply(w, e).actors && CanFail(Apply(w, e).actors[a], id);
      CanFailStep(w, e, id, a);
      assert false;
    }
  }

  ghost predicate NothingInjected(es: seq<Event>) {
    forall i :: 0 <= i < |es| ==> !es[i].Inject?
  }

  lemma {:induction false} StaysStranded(es: seq<Event>, more: seq<Event>, id: SessionId)
    requires StatusIs(RunTo(es), id, AbandonedVerifying) && !SomeoneCanFail(RunTo(es), id) && NothingInjected(more)
    ensures StatusIs(RunTo(es + more), id, AbandonedVerifying) && !SomeoneCanFail(RunTo(es + more), id)
    decreases |more|
  {
    if more == [] {
      assert es + more == es;
    } else {
      var init, e := more[..|more| - 1], more[|more| - 1];
      StaysStranded(es, init, id);
      RunAppend(es, more);
      RunKeepsInv(es + init);
      StrandedStep(RunTo(es + init), e, id);
    }
  }

  // ---- Somebody left: rescued -----------------------------------------------------------------

  /** The call with which a caller that verifies session `id` fails it. */
  function Failing(actor: Actor): Call
    requires actor.Processing?
  {
    Fail(actor.origin, FailedRetriable, actor.stage.MustFail? && actor.stage.stored)
  }

  lemma FailingIsRead(w: World, a: ActorId, id: SessionId)
    requires Inv(w) && StatusIs(w, id, AbandonedVerifying) && a in w.actors
    requires w.actors[a].Processing? && CanFail(w.actors[a], id)
    ensures Apply(w, Read(a, id, Failing(w.actors[a]))) ==
            w.(actors := w.actors[a := InFlight(id, AbandonedVerifying, Failing(w.actors[a]))])
  {
    assert ActorOk(w, w.actors[a]);
  }

  lemma FailsIt(es: seq<Event>, a: ActorId, id: SessionId) returns (more: seq<Event>)
    requires StatusIs(RunTo(es), id, AbandonedVerifying) && a in RunTo(es).actors
    requires RunTo(es).actors[a].Processing? && CanFail(RunTo(es).actors[a], id)
    ensures NothingInjected(more) && StatusIs(RunTo(es + more), id, FailedRetriable)
  {
    RunKeepsInv(es);
    var read := Read(a, id, Failing(RunTo(es).actors[a]));
    RunNext(es, read);
    FailingIsRead(RunTo(es), a, id);
    WritesIt(es + [read], a, id);
    Regroup(es, read, [Write(a)]);
    more := [read] + [Write(a)];
  }

  lemma WritesIt(es: seq<Event>, a: ActorId, id: SessionId)
    requires StatusIs(RunTo(es), id, AbandonedVerifying) && a in RunTo(es).actors
    requires RunTo(es).actors[a].InFlight? && RunTo(es).actors[a].id == id
    requires RunTo(es).actors[a].call.Fail? && RunTo(es).actors[a].observed == AbandonedVerifying
    ensures StatusIs(RunTo(es + [Write(a)]), id, RunTo(es).actors[a].call.failureState)
  {
    RunNext(es, Write(a));
    assert Commits(RunTo(es), a);
    WrittenRow(RunTo(es), a);
  }

  /** A completion in flight is refused, and leads to fail_processing. */
  lemma CompletionIsRefused(w: World, a: ActorId, id: SessionId)
    requires Inv(w) && StatusIs(w, id, AbandonedVerifying) && a in w.actors
    requires w.actors[a].InFlight? && w.actors[a].id == id && w.actors[a].call.Complete?
    ensures Apply(w, Write(a)) == w.(actors := w.actors[a := AfterFailure(id, w.actors[a].call)])
  {
    assert ActorOk(w, w.actors[a]);
  }

  lemma Rescue(es: seq<Event>, a: ActorId, id: SessionId) returns (more: seq<Event>)
    requires StatusIs(RunTo(es), id, AbandonedVerifying) && a in RunTo(es).actors && CanFail(RunTo(es).actors[a], id)
    ensures NothingInjected(more) && !StatusIs(RunTo(es + more), id, AbandonedVerifying)
  {
    RunKeepsInv(es);
    var actor := RunTo(es).actors[a];
    if actor.Processing? {
      more := FailsIt(es, a, id);
    } else if actor.call.Fail? {
      assert ActorOk(RunTo(es), actor);
      WritesIt(es, a, id);
      more := [Write(a)];
    } else {
      CompletionIsRefused(RunTo(es), a, id);
      RunNext(es, Write(a));
      var rest := FailsIt(es + [Write(a)], a, id);
      Regroup(es, Write(a), rest);
      more := [Write(a)] + rest;
    }
  }

  /** The session leaves ABANDONED_VERIFYING in some continuation without further injected calls. */
  ghost predicate CanGetAway(es: seq<Event>, id: SessionId) {
    exists more :: NothingInjected(more) && !StatusIs(RunTo(es + more), id, AbandonedVerifying)
  }

  /**
   An abandoned session can get away exactly while some caller that verifies it can still fail it: neither the
   workers nor the /run route take it up again, so without such a caller it stays abandoned for ever.
   */
  lemma AbandonedGetsAwayIff(es: seq<Event>, id: SessionId)
    requires StatusIs(RunTo(es), id, AbandonedVerifying)
    ensures CanGetAway(es, id) <==> SomeoneCanFail(RunTo(es), id)
  {
    if SomeoneCanFail(RunTo(es), id) {
      var a :| a in RunTo(es).actors && CanFail(RunTo(es).actors[a], id);
      var more := Rescue(es, a, id);
    }
    if more :| NothingInjected(more) && !StatusIs(RunTo(es + more), id, AbandonedVerifying) {
      if !SomeoneCanFail(RunTo(es), id) {
        StaysStranded(es, more, id);
      }
    }
  }

  /** A call with injected stages could always fail it, and so make it startable again. */
  lemma InjectedCallRescues(es: seq<Event>, id: SessionId) returns (more: seq<Event>)
    requires StatusIs(RunTo(es), id, AbandonedVerifying)
    ensures StatusIs(RunTo(es + more), id, FailedRetriable)
  {
    var a := "caller";
    RunNext(es, Abort(a));
    RunNext(es + [Abort(a)], Inject(a, id));
    var injected := (es + [Abort(a)]) + [Inject(a, id)];
    assert RunTo(injected).actors[a] == Processing(id, Injected, Working);
    var rest := FailsIt(injected, a, id);
    Regroup(es + [Abort(a)], Inject(a, id), rest);
    Regroup(es, Abort(a), [Inject(a, id)] + rest);
    more := [Abort(a)] + ([Inject(a, id)] + rest);
  }
}
