/** What a finished job says about its session, over every run of WorkerProtocol. */
module WorkerSafety {
  import opened Prelude
  import opened StateMachine
  import opened WorkerProtocol
  import S = SessionProtocol
  import SS = SessionSafety
  import ST = SessionTable
  import J = JobProtocol
  import JS = JobSafety
  import JT = JobTable

  // ---- Workers and their turns ----------------------------------------------------------------

  /** What a worker holds in the session protocol at each point of its turn. */
  predicate TurnOk(actor: S.Actor, id: SessionId, a: WorkerId, turn: Turn) {
    match turn
    case Claimed | Completed | Rejected => actor == S.Idle
    case Entering => actor.InFlight? && actor.id == id && actor.call == S.Acquire(a)
    case Inside =>
      && S.Verifies(actor, id) == Some(S.ByWorker(a)) && !(actor.Processing? && actor.stage.Leaving?)
      && (actor.InFlight? && actor.call.Complete? ==> actor.call.outcomeState == PendingHumanReview)
    case Raised => actor.Idle? || (actor.Processing? && actor.stage.Leaving?)
  }

  ghost predicate WorkerOk(w: World, a: WorkerId) {
    && (a in w.turns <==> J.PcOf(w.jobs, a).Holding?)
    && (a in w.turns ==>
          SessionOf(w, a).Some? && TurnOk(S.ActorOf(w.sessions, a), SessionOf(w, a).value, a, w.turns[a]))
    && (a in w.jobs.workers && a !in w.turns ==> S.ActorOf(w.sessions, a) == S.Idle)
  }

  ghost predicate Inv(w: World) {
    S.Inv(w.sessions) && J.Inv(w.jobs) && JS.HeldFinished(w.jobs) && forall a :: WorkerOk(w, a)
  }

  lemma OthersUntouched(w: S.World, e: S.Event, a: S.ActorId)
    requires CallerOf(e) != Some(a)
    ensures S.ActorOf(S.Apply(w, e), a) == S.ActorOf(w, a)
  {
  }

  /** Outside claims, marks and losses a worker that holds a job keeps it, and no other comes to hold one. */
  lemma HoldingKept(s: J.World, e: J.Event, a: WorkerId)
    requires (e.Claim? && J.Claims(s, e)) || e.Finish? || e.Lose? ==> e.w != a
    ensures J.PcOf(s, a).Holding? ==> J.PcOf(J.Apply(s, e), a) == J.PcOf(s, a)
    ensures J.PcOf(J.Apply(s, e), a).Holding? ==> J.PcOf(s, a).Holding?
    ensures a in J.Apply(s, e).workers && a !in s.workers ==> e.Select? && e.w == a
  {
  }

  /** The worker that takes this step, if it is one with a job or one that gets a job. */
  function Taker(w: World, e: Event): Option<WorkerId> {
    match e
    case Other(_) => None
    case Queue(j) => if j.Claim? && J.Claims(w.jobs, j) then Some(j.w) else None
    case Read(a, _) => Some(a)
    case Write(a) => Some(a)
    case Raise(a) => Some(a)
    case Finish(a, _) => Some(a)
    case Lose(a) => Some(a)
  }

  /** The steps of others change nothing about a worker's turn, its session, or what it holds. */
  lemma OthersKeepWorker(w: World, e: Event, a: WorkerId)
    requires Inv(w) && Taker(w, e) != Some(a)
    ensures WorkerOk(Apply(w, e), a)
  {
    var w' := Apply(w, e);
    assert WorkerOk(w, a);
    if JobStep(w, e).Some? {
      J.StepAdvancesJobs(w.jobs, JobStep(w, e).value);
      HoldingKept(w.jobs, JobStep(w, e).value, a);
    }
    assert (a in w'.turns <==> a in w.turns) && (a in w.turns ==> w'.turns[a] == w.turns[a]);
    if a in w'.jobs.workers && SessionStep(w, e).Some? && CallerOf(SessionStep(w, e).value) != Some(a) {
      OthersUntouched(w.sessions, SessionStep(w, e).value, a);
    }
  }

  lemma TakerKeepsTurn(w: World, e: Event, a: WorkerId)
    requires Inv(w) && Taker(w, e) == Some(a)
    ensures WorkerOk(Apply(w, e), a)
  {
    assert WorkerOk(w, a);
    match e
    case Queue(j) => ClaimStartsTurn(w, j);
    case Read(_, call) => ReadKeepsTurn(w, a, call);
    case Write(_) => WriteKeepsTurn(w, a);
    case Raise(_) => RaiseKeepsTurn(w, a);
    case Finish(_, error) => FinishKeepsTurn(w, a, error);
    case Lose(_) => LoseKeepsTurn(w, a);
  }

  lemma ClaimStartsTurn(w: World, j: J.Event)
    requires Inv(w) && j.Claim? && J.Claims(w.jobs, j)
    ensures WorkerOk(Apply(w, Queue(j)), j.w)
  {
    assert WorkerOk(w, j.w);
  }

  lemma ReadKeepsTurn(w: World, a: WorkerId, call: S.Call)
    requires Inv(w)
    ensures WorkerOk(Apply(w, Read(a, call)), a)
  {
    assert WorkerOk(w, a);
    if MayRead(w, a, call) {
      var id := SessionOf(w, a).value;
      ReadLeavesTurn(w.sessions, a, id, call, w.turns[a]);
    }
  }

  lemma ReadLeavesTurn(s: S.World, a: WorkerId, id: SessionId, call: S.Call, turn: Turn)
    requires TurnOk(S.ActorOf(s, a), id, a, turn)
    requires (turn.Claimed? && call == S.Acquire(a)) || (turn.Inside? && S.Ends(call))
    requires call.Complete? ==> call.outcomeState == PendingHumanReview
    ensures var after := S.ActorOf(S.Apply(s, S.Read(a, id, call)), a);
            var turn' := NextTurn(turn, S.ActorOf(s, a), after);
            TurnOk(after, id, a, turn') && !turn'.Completed?
  {
    assert S.Apply(s, S.Read(a, id, call)) == S.AfterRead(s, a, id, call);
  }

  lemma WriteKeepsTurn(w: World, a: WorkerId)
    requires Inv(w)
    ensures WorkerOk(Apply(w, Write(a)), a)
  {
    assert WorkerOk(w, a);
    if AtTurn(w, a, {Entering, Inside}) {
      WriteLeavesTurn(w.sessions, a, SessionOf(w, a).value, w.turns[a]);
    }
  }

  lemma WriteLeavesTurn(s: S.World, a: WorkerId, id: SessionId, turn: Turn)
    requires TurnOk(S.ActorOf(s, a), id, a, turn) && turn in {Entering, Inside}
    ensures var after := S.ActorOf(S.Apply(s, S.Write(a)), a);
            TurnOk(after, id, a, NextTurn(turn, S.ActorOf(s, a), after))
  {
  }

  /** Raising, marking and being lost leave the worker idle in the session protocol. */
  lemma IdleAfter(s: S.World, e: S.Event, a: S.ActorId)
    requires e == S.Abort(a) || (e == S.StoreBundle(a) && S.LeftToStore(S.ActorOf(s, a)).Some?)
    ensures S.ActorOf(S.Apply(s, e), a) == S.Idle
  {
  }

  lemma RaiseKeepsTurn(w: World, a: WorkerId)
    requires Inv(w)
    ensures WorkerOk(Apply(w, Raise(a)), a)
  {
    assert WorkerOk(w, a);
    if SessionStep(w, Raise(a)).Some? {
      IdleAfter(w.sessions, S.Abort(a), a);
    }
  }

  /** A worker that marks its job, or is lost, holds none afterwards. */
  lemma FreeAfter(s: J.World, e: J.Event, a: WorkerId)
    requires e == J.Lose(a) || (e.Finish? && e.w == a && e.status in {JT.Done, JT.Failed, JT.Skipped})
    ensures !J.PcOf(J.Apply(s, e), a).Holding?
    ensures a in J.Apply(s, e).workers ==> a in s.workers || J.PcOf(s, a).Holding?
  {
  }

  lemma FinishKeepsTurn(w: World, a: WorkerId, error: string)
    requires Inv(w)
    ensures WorkerOk(Apply(w, Finish(a, error)), a)
  {
    assert WorkerOk(w, a);
    if SessionStep(w, Finish(a, error)).Some? {
      IdleAfter(w.sessions, SessionStep(w, Finish(a, error)).value, a);
    }
    if JobStep(w, Finish(a, error)).Some? {
      FreeAfter(w.jobs, JobStep(w, Finish(a, error)).value, a);
    }
  }

  lemma LoseKeepsTurn(w: World, a: WorkerId)
    requires Inv(w)
    ensures WorkerOk(Apply(w, Lose(a)), a)
  {
    assert WorkerOk(w, a);
    if a in w.turns {
      IdleAfter(w.sessions, S.Abort(a), a);
      FreeAfter(w.jobs, J.Lose(a), a);
    }
  }

  lemma {:induction false} RunKeepsInv(es: seq<Event>)
    ensures Inv(RunTo(es))
  {
    BothKeepInv(es);
    RunsOfBoth(es);
    JS.RunKeepsHeldFinished(JobRun(es));
    if es != [] {
      var w, e := RunTo(es[..|es| - 1]), es[|es| - 1];
      RunKeepsInv(es[..|es| - 1]);
      forall a
        ensures WorkerOk(Apply(w, e), a)
      {
        if Taker(w, e) == Some(a) {
          TakerKeepsTurn(w, e, a);
        } else {
          OthersKeepWorker(w, e, a);
        }
      }
    }
  }

  // ---- Completions ----------------------------------------------------------------------------

  /** This step commits the completion of the job's session by the worker that holds the job. */
  predicate Completes(w: World, e: Event, id: JobId) {
    && e.Write? && JobOf(w, e.a) == Some(id) && AtTurn(w, e.a, {Inside})
    && S.Commits(w.sessions, e.a) && S.ActorOf(w.sessions, e.a).call.Complete?
    && S.ActorOf(w.sessions, e.a).id == w.jobs.jobs[id].session
    && S.ActorOf(w.sessions, e.a).call.origin == S.ByWorker(e.a)
  }

  /** Some step of the run did. */
  ghost predicate WasCompleted(es: seq<Event>, id: JobId) {
    es != [] && (WasCompleted(es[..|es| - 1], id) || Completes(RunTo(es[..|es| - 1]), es[|es| - 1], id))
  }

  /** A worker comes to Completed only by committing the completion of its job's session. */
  lemma BecomesCompleted(w: World, e: Event, a: WorkerId)
    requires Inv(w) && AtTurn(Apply(w, e), a, {Completed}) && !AtTurn(w, a, {Completed})
    ensures JobOf(w, a).Some? && Completes(w, e, JobOf(w, a).value)
  {
    assert WorkerOk(w, a);
    match e
    case Read(_, call) =>
      if MayRead(w, a, call) {
        ReadLeavesTurn(w.sessions, a, SessionOf(w, a).value, call, w.turns[a]);
      }
    case Write(_) =>
      if AtTurn(w, a, {Entering, Inside}) {
        CompletedByCommit(w.sessions, a, SessionOf(w, a).value, w.turns[a]);
      }
    case _ =>
  }

  lemma CompletedByCommit(s: S.World, a: WorkerId, id: SessionId, turn: Turn)
    requires TurnOk(S.ActorOf(s, a), id, a, turn) && turn in {Entering, Inside}
    requires NextTurn(turn, S.ActorOf(s, a), S.ActorOf(S.Apply(s, S.Write(a)), a)) == Completed
    ensures turn == Inside && S.Commits(s, a) && S.ActorOf(s, a).call.Complete?
    ensures S.ActorOf(s, a).id == id && S.ActorOf(s, a).call.origin == S.ByWorker(a)
  {
  }

  /** In the job protocol a job comes to DONE or SKIPPED only when the worker that holds it marks it so. */
  lemma MarkedByHolder(s: J.World, e: J.Event, id: JobId)
    requires J.Inv(s) && id in J.Apply(s, e).jobs && J.Apply(s, e).jobs[id].status in {JT.Done, JT.Skipped}
    requires id in s.jobs ==> s.jobs[id].status != J.Apply(s, e).jobs[id].status
    ensures e.Finish? && J.PcOf(s, e.w) == J.Holding(id) && id in s.jobs && e.status == J.Apply(s, e).jobs[id].status
  {
    if e.Finish? && J.PcOf(s, e.w).Holding? {
      assert J.WorkerOk(s.jobs, e.w, s.workers[e.w]);
    }
  }

  /** A job comes to DONE or SKIPPED only at the end of the turn of the worker that holds it. */
  lemma BecomesFinished(w: World, e: Event, id: JobId)
    requires Inv(w) && id in Apply(w, e).jobs.jobs && Apply(w, e).jobs.jobs[id].status in {JT.Done, JT.Skipped}
    requires id in w.jobs.jobs ==> w.jobs.jobs[id].status != Apply(w, e).jobs.jobs[id].status
    ensures e.Finish? && JobOf(w, e.a) == Some(id)
    ensures AtTurn(w, e.a, if Apply(w, e).jobs.jobs[id].status == JT.Done then {Completed} else {Rejected})
  {
    MarkedByHolder(w.jobs, JobStep(w, e).value, id);
  }

  /** A job marked DONE had its session completed, in a commit of its own, by the worker that held it. */
  lemma {:induction false} DoneMeansCompleted(es: seq<Event>, id: JobId)
    requires id in RunTo(es).jobs.jobs && RunTo(es).jobs.jobs[id].status == JT.Done
    ensures WasCompleted(es, id)
  {
    var init, e := es[..|es| - 1], es[|es| - 1];
    RunKeepsInv(init);
    if id in RunTo(init).jobs.jobs && RunTo(init).jobs.jobs[id].status == JT.Done {
      DoneMeansCompleted(init, id);
    } else {
      BecomesFinished(RunTo(init), e, id);
      CompletedTurnMeansCompleted(init, e.a);
    }
  }

  lemma {:induction false} CompletedTurnMeansCompleted(es: seq<Event>, a: WorkerId)
    requires AtTurn(RunTo(es), a, {Completed})
    ensures JobOf(RunTo(es), a).Some? && WasCompleted(es, JobOf(RunTo(es), a).value)
  {
    var init, e := es[..|es| - 1], es[|es| - 1];
    RunKeepsInv(init);
    RunKeepsInv(es);
    assert WorkerOk(RunTo(es), a);
    if AtTurn(RunTo(init), a, {Completed}) {
      CompletedTurnMeansCompleted(init, a);
    } else {
      BecomesCompleted(RunTo(init), e, a);
    }
    TurnsKeepTheirJob(RunTo(init), e, a);
  }

  /** While a worker stays in a turn past the claim it holds the same job. */
  lemma TurnsKeepTheirJob(w: World, e: Event, a: WorkerId)
    requires Inv(w) && a in w.turns && a in Apply(w, e).turns
    ensures JobOf(Apply(w, e), a) == JobOf(w, a)
  {
    assert WorkerOk(w, a);
    if JobStep(w, e).Some? {
      J.StepAdvancesJobs(w.jobs, JobStep(w, e).value);
      HoldingKept(w.jobs, JobStep(w, e).value, a);
    }
  }

  // ---- At most one completed job per session --------------------------------------------------

  /** From the wait for review on; no verification completes here. */
  const FROM_REVIEW_ON: set<State> := {PendingHumanReview} + HUMAN_FINAL_STATES + CLOSING_STATES

  lemma {:induction false} ReviewIsNotLeft(s: State, moves: seq<State>)
    requires S.Chain(s, moves) && s in FROM_REVIEW_ON
    ensures S.EndOf(s, moves) in FROM_REVIEW_ON
    decreases moves
  {
    if moves != [] {
      assert moves[0] in FROM_REVIEW_ON;
      ReviewIsNotLeft(moves[0], moves[1..]);
    }
  }

  predicate UnderReview(w: World, session: SessionId) {
    session in w.sessions.rows && w.sessions.rows[session].status in FROM_REVIEW_ON
  }

  lemma StaysUnderReview(w: World, e: Event, session: SessionId)
    requires S.Inv(w.sessions) && UnderReview(w, session)
    ensures UnderReview(Apply(w, e), session)
  {
    if SessionStep(w, e).Some? {
      var step := SessionStep(w, e).value;
      SS.StepFollowsTable(w.sessions, step, session);
      ReviewIsNotLeft(w.sessions.rows[session].status, S.Moves(w.sessions, step, session));
    }
  }

  /** What a completed job is from then on. */
  ghost predicate CompletedOk(w: World, id: JobId) {
    && id in w.jobs.jobs && w.jobs.jobs[id].status in {JT.Processing, JT.Done, JT.Failed}
    && UnderReview(w, w.jobs.jobs[id].session)
    && forall a :: JobOf(w, a) == Some(id) ==> AtTurn(w, a, {Completed, Raised})
  }

  lemma OneHolder(w: World, a: WorkerId, b: WorkerId)
    requires J.Inv(w.jobs) && JobOf(w, a).Some? && JobOf(w, a) == JobOf(w, b)
    ensures a == b
  {
    assert J.WorkerOk(w.jobs.jobs, a, w.jobs.workers[a]) && J.WorkerOk(w.jobs.jobs, b, w.jobs.workers[b]);
  }

  lemma HeldJobIsOpen(w: World, a: WorkerId)
    requires J.Inv(w.jobs) && JS.HeldFinished(w.jobs) && JobOf(w, a).Some?
    ensures w.jobs.jobs[JobOf(w, a).value].status in {JT.Processing, JT.Failed}
  {
    assert J.WorkerOk(w.jobs.jobs, a, w.jobs.workers[a]);
  }

  lemma CompletionCommits(s: S.World, a: S.ActorId)
    requires S.Commits(s, a) && S.ActorOf(s, a).call.Complete?
    requires S.ActorOf(s, a).call.outcomeState == PendingHumanReview
    ensures var (id, s') := (S.ActorOf(s, a).id, S.Apply(s, S.Write(a)));
            id in s'.rows && s'.rows[id].status == PendingHumanReview && S.ActorOf(s', a) == S.Idle
  {
  }

  lemma CompletionIsOk(w: World, e: Event, id: JobId)
    requires Inv(w) && Completes(w, e, id)
    ensures CompletedOk(Apply(w, e), id)
  {
    var w' := Apply(w, e);
    assert WorkerOk(w, e.a);
    HeldJobIsOpen(w, e.a);
    CompletionCommits(w.sessions, e.a);
    assert w'.jobs == w.jobs && w'.turns == w.turns[e.a := Completed];
    forall a | JobOf(w', a) == Some(id)
      ensures AtTurn(w', a, {Completed, Raised})
    {
      OneHolder(w, a, e.a);
    }
  }

  lemma CompletedStays(w: World, e: Event, id: JobId)
    requires Inv(w) && CompletedOk(w, id)
    ensures CompletedOk(Apply(w, e), id)
  {
    StaysUnderReview(w, e, w.jobs.jobs[id].session);
    CompletedJobStays(w, e, id);
    forall a | JobOf(Apply(w, e), a) == Some(id)
      ensures AtTurn(Apply(w, e), a, {Completed, Raised})
    {
      CompletedTurnStays(w, e, id, a);
    }
  }

  lemma CompletedJobStays(w: World, e: Event, id: JobId)
    requires Inv(w) && CompletedOk(w, id)
    ensures id in Apply(w, e).jobs.jobs && Apply(w, e).jobs.jobs[id].session == w.jobs.jobs[id].session
    ensures Apply(w, e).jobs.jobs[id].status in {JT.Processing, JT.Done, JT.Failed}
  {
    if JobStep(w, e).Some? {
      J.StepAdvancesJobs(w.jobs, JobStep(w, e).value);
      assert J.JobAdvances(w.jobs.jobs[id], Apply(w, e).jobs.jobs[id]);
      if Apply(w, e).jobs.jobs[id].status == JT.Skipped {
        BecomesFinished(w, e, id);
        assert false;
      }
    }
  }

  lemma CompletedTurnStays(w: World, e: Event, id: JobId, a: WorkerId)
    requires Inv(w) && CompletedOk(w, id) && JobOf(Apply(w, e), a) == Some(id)
    ensures AtTurn(Apply(w, e), a, {Completed, Raised})
  {
    HolderStays(w, e, id, a);
    assert WorkerOk(w, a);
    if Taker(w, e) == Some(a) {
      TakerKeepsTurn(w, e, a);
    } else {
      OthersKeepWorker(w, e, a);
    }
  }

  /** A completed job is not claimed again. */
  lemma HolderStays(w: World, e: Event, id: JobId, a: WorkerId)
    requires Inv(w) && CompletedOk(w, id) && JobOf(Apply(w, e), a) == Some(id)
    ensures JobOf(w, a) == Some(id)
  {
    if JobStep(w, e).Some? {
      var j := JobStep(w, e).value;
      if (j.Finish? || j.Lose?) && j.w == a {
        HeldBefore(w.jobs, j, a);
      } else if !(j.Claim? && J.Claims(w.jobs, j) && j.w == a) {
        HoldingKept(w.jobs, j, a);
      }
    }
  }

  lemma HeldBefore(s: J.World, j: J.Event, a: WorkerId)
    requires (j.Finish? || j.Lose?) && J.PcOf(J.Apply(s, j), a).Holding?
    ensures J.PcOf(s, a) == J.PcOf(J.Apply(s, j), a)
  {
  }

  lemma {:induction false} CompletedIsOk(es: seq<Event>, id: JobId)
    requires WasCompleted(es, id)
    ensures CompletedOk(RunTo(es), id)
  {
    var init, e := es[..|es| - 1], es[|es| - 1];
    RunKeepsInv(init);
    if WasCompleted(init, id) {
      CompletedIsOk(init, id);
      CompletedStays(RunTo(init), e, id);
    } else {
      CompletionIsOk(RunTo(init), e, id);
    }
  }

  /** A job whose worker completed the session is never skipped, and its session waits for review or is beyond. */
  lemma CompletedIsNeverSkipped(es: seq<Event>, id: JobId)
    requires WasCompleted(es, id)
    ensures id in RunTo(es).jobs.jobs && RunTo(es).jobs.jobs[id].status in {JT.Processing, JT.Done, JT.Failed}
    ensures UnderReview(RunTo(es), RunTo(es).jobs.jobs[id].session)
  {
    CompletedIsOk(es, id);
  }

  /** A verification completes only before the wait for review. */
  lemma CompletesBeforeReview(w: World, e: Event, id: JobId)
    requires Inv(w) && Completes(w, e, id)
    ensures !UnderReview(w, w.jobs.jobs[id].session)
  {
    assert WorkerOk(w, e.a);
    assert S.ActorOk(w.sessions, w.sessions.actors[e.a]);
  }

  /**
   However many jobs a session has, racing enqueues included, and however workers are swept, displaced or lost, the
   workers complete the session for one of its jobs at most.
   */
  lemma {:induction false} OneCompletedJobPerSession(es: seq<Event>, i: JobId, k: JobId)
    requires WasCompleted(es, i) && WasCompleted(es, k)
    requires i in RunTo(es).jobs.jobs && k in RunTo(es).jobs.jobs
    requires RunTo(es).jobs.jobs[i].session == RunTo(es).jobs.jobs[k].session
    ensures i == k
  {
    var init, e := es[..|es| - 1], es[|es| - 1];
    RunKeepsInv(init);
    if WasCompleted(init, i) {
      CompletedIsOk(init, i);
      CompletedJobStays(RunTo(init), e, i);
    }
    if WasCompleted(init, k) {
      CompletedIsOk(init, k);
      CompletedJobStays(RunTo(init), e, k);
    }
    if WasCompleted(init, i) && WasCompleted(init, k) {
      OneCompletedJobPerSession(init, i, k);
    } else if Completes(RunTo(init), e, i) {
      CompletesBeforeReview(RunTo(init), e, i);
    } else {
      CompletesBeforeReview(RunTo(init), e, k);
    }
  }

  /** So at most one job of each session is ever DONE. */
  lemma OneDoneJobPerSession(es: seq<Event>, i: JobId, k: JobId)
    requires i in RunTo(es).jobs.jobs && RunTo(es).jobs.jobs[i].status == JT.Done
    requires k in RunTo(es).jobs.jobs && RunTo(es).jobs.jobs[k].status == JT.Done
    requires RunTo(es).jobs.jobs[i].session == RunTo(es).jobs.jobs[k].session
    ensures i == k
  {
    DoneMeansCompleted(es, i);
    DoneMeansCompleted(es, k);
    OneCompletedJobPerSession(es, i, k);
  }

  // ---- An undisturbed turn --------------------------------------------------------------------

  /** The worker's job is for this session, and these are its turn and what it holds. */
  predicate Stands(w: World, a: WorkerId, job: JobId, id: SessionId, turn: Turn, actor: S.Actor) {
    && JobOf(w, a) == Some(job) && w.jobs.jobs[job].session == id && a in w.turns && w.turns[a] == turn
    && S.ActorOf(w.sessions, a) == actor && id in w.sessions.rows
  }

  /** A read of the session's present status, allowed and valid, puts the call in flight. */
  lemma TurnReads(w: World, a: WorkerId, job: JobId, id: SessionId, turn: Turn, actor: S.Actor, call: S.Call)
    requires Stands(w, a, job, id, turn, actor) && MayRead(w, a, call)
    requires S.MayCall(actor, id, call) && S.WellFormed(call)
    requires ValidTransition(w.sessions.rows[id].status, S.Targets(call)[0])
    ensures var (w', after) := (Apply(w, Read(a, call)), S.InFlight(id, w.sessions.rows[id].status, call));
            && Stands(w', a, job, id, NextTurn(turn, actor, after), after) && w'.sessions.rows == w.sessions.rows
  {
    assert S.Apply(w.sessions, S.Read(a, id, call)) == S.AfterRead(w.sessions, a, id, call);
  }

  /** And the write commits it, if nobody has come in between. */
  lemma TurnWrites(w: World, a: WorkerId, job: JobId, id: SessionId, turn: Turn, call: S.Call)
    requires id in w.sessions.rows && turn in {Entering, Inside}
    requires Stands(w, a, job, id, turn, S.InFlight(id, w.sessions.rows[id].status, call))
    requires call.Acquire? || call.Complete?
    requires call.Acquire? ==> w.sessions.rows[id].lease == None
    ensures var (w', after) := (Apply(w, Write(a)), S.AfterSuccess(id, call));
            && Stands(w', a, job, id, NextTurn(turn, S.ActorOf(w.sessions, a), after), after)
            && w'.sessions.rows[id].status == S.Targets(call)[0]
  {
    assert S.Commits(w.sessions, a);
    assert S.Apply(w.sessions, S.Write(a)) == S.AfterCommit(w.sessions, a);
  }

  lemma TurnEnds(w: World, a: WorkerId, job: JobId, id: SessionId, actor: S.Actor)
    requires Stands(w, a, job, id, Completed, actor)
    ensures job in Apply(w, Finish(a, "")).jobs.jobs && Apply(w, Finish(a, "")).jobs.jobs[job].status == JT.Done
  {
    assert JobStep(w, Finish(a, "")) == Some(J.Finish(a, JT.Done, None));
  }

  /** Undisturbed, a worker that has claimed a job of a leasable session enters the session. */
  lemma UndisturbedEntry(w: World, a: WorkerId, job: JobId, id: SessionId) returns (reading: World, inside: World)
    requires Stands(w, a, job, id, Claimed, S.Idle) && w.sessions.rows[id].lease == None
    requires w.sessions.rows[id].status in ST.LEASE_ACQUIRABLE_STATES
    ensures reading == Apply(w, Read(a, S.Acquire(a))) && inside == Apply(reading, Write(a))
    ensures Stands(inside, a, job, id, Inside, S.Processing(id, S.ByWorker(a), S.Working))
    ensures inside.sessions.rows[id].status == Verifying
  {
    TurnReads(w, a, job, id, Claimed, S.Idle, S.Acquire(a));
    reading := Apply(w, Read(a, S.Acquire(a)));
    TurnWrites(reading, a, job, id, Entering, S.Acquire(a));
    inside := Apply(reading, Write(a));
  }

  /** And once inside it completes the session and then marks its job DONE. */
  lemma UndisturbedCompletion(w: World, a: WorkerId, job: JobId, id: SessionId, outcome: string)
    returns (reading: World, ended: World, marked: World)
    requires Stands(w, a, job, id, Inside, S.Processing(id, S.ByWorker(a), S.Working))
    requires w.sessions.rows[id].status == Verifying
    ensures reading == Apply(w, Read(a, S.Complete(S.ByWorker(a), PendingHumanReview, outcome, true)))
    ensures ended == Apply(reading, Write(a)) && marked == Apply(ended, Finish(a, ""))
    ensures Completes(reading, Write(a), job) && UnderReview(ended, id)
    ensures job in marked.jobs.jobs && marked.jobs.jobs[job].status == JT.Done
  {
    var call := S.Complete(S.ByWorker(a), PendingHumanReview, outcome, true);
    TurnReads(w, a, job, id, Inside, S.Processing(id, S.ByWorker(a), S.Working), call);
    reading := Apply(w, Read(a, call));
    TurnWrites(reading, a, job, id, Inside, call);
    ended := Apply(reading, Write(a));
    TurnEnds(ended, a, job, id, S.Idle);
    marked := Apply(ended, Finish(a, ""));
  }
}
