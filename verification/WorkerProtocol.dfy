/**
 Workers between the two tables: the session protocol and the job protocol run side by side, in any interleaving.

 A worker that has claimed a job acquires the lease of its session, runs the pipeline, and marks the job
 (backend/app/worker/worker.py:83-137). Its completion or failure of the session commits before the job is marked
 (backend/app/workflow/service.py:250-300), so that it may be lost, swept or raise in between.
 */
module WorkerProtocol {
  import opened Prelude
  import opened StateMachine
  import S = SessionProtocol
  import SS = SessionSafety
  import ST = SessionTable
  import J = JobProtocol
  import JT = JobTable

  type WorkerId = string
  type JobId = JT.JobId
  type SessionId = string

  /** Where a worker that holds a job is in its turn. */
  datatype Turn = Claimed | Entering | Inside | Completed | Rejected | Raised

  datatype World = World(sessions: S.World, jobs: J.World, turns: map<WorkerId, Turn>)

  const INIT := World(S.INIT, J.INIT, map[])

  /**
   A step of somebody who is no worker; a statement of the queue up to the claim; or a step of a worker with a job:
   reading and writing its session, an exception outside the pipeline, marking the job, or being lost.
   */
  datatype Event =
    | Other(s: S.Event)
    | Queue(j: J.Event)
    | Read(a: WorkerId, call: S.Call)
    | Write(a: WorkerId)
    | Raise(a: WorkerId)
    | Finish(a: WorkerId, error: string)
    | Lose(a: WorkerId)

  /** The job a worker holds. */
  function JobOf(w: World, a: WorkerId): Option<JobId> {
    if J.PcOf(w.jobs, a).Holding? && J.PcOf(w.jobs, a).job in w.jobs.jobs then Some(J.PcOf(w.jobs, a).job) else None
  }

  function SessionOf(w: World, a: WorkerId): Option<SessionId> {
    if JobOf(w, a).Some? then Some(w.jobs.jobs[JobOf(w, a).value].session) else None
  }

  /** The caller whose statement this is, if it is one caller's. */
  function CallerOf(e: S.Event): Option<S.ActorId> {
    match e
    case LoadForReview(a, _, _) => Some(a)
    case LoadForToken(a, _, _, _) => Some(a)
    case LoadForUpload(a, _) => Some(a)
    case Read(a, _, _) => Some(a)
    case Write(a) => Some(a)
    case ReplayReceipt(a) => Some(a)
    case InsertToken(a) => Some(a)
    case StoreBundle(a) => Some(a)
    case Inject(a, _) => Some(a)
    case Abort(a) => Some(a)
    case _ => None
  }

  predicate ByOutsider(w: World, e: S.Event) {
    && (CallerOf(e).Some? ==> CallerOf(e).value !in w.jobs.workers)
    && (e.Read? ==> !e.call.Acquire?)
  }

  predicate AtTurn(w: World, a: WorkerId, turns: set<Turn>) {
    a in w.turns && w.turns[a] in turns
  }

  /** A worker reads its session to acquire its lease, and inside to end its verification with a review pending. */
  predicate MayRead(w: World, a: WorkerId, call: S.Call) {
    && SessionOf(w, a).Some?
    && ((AtTurn(w, a, {Claimed}) && call == S.Acquire(a))
        || (AtTurn(w, a, {Inside}) && S.Ends(call) && (call.Complete? ==> call.outcomeState == PendingHumanReview)))
  }

  /** What a step does to the sessions; marking a job failed commits a bundle left in the transaction. */
  function SessionStep(w: World, e: Event): Option<S.Event> {
    match e
    case Other(s) => if ByOutsider(w, s) then Some(s) else None
    case Queue(_) => None
    case Read(a, call) => if MayRead(w, a, call) then Some(S.Read(a, SessionOf(w, a).value, call)) else None
    case Write(a) => if AtTurn(w, a, {Entering, Inside}) then Some(S.Write(a)) else None
    case Raise(a) => if AtTurn(w, a, {Claimed, Entering, Completed}) then Some(S.Abort(a)) else None
    case Finish(a, _) =>
      if !AtTurn(w, a, {Raised}) then None
      else if S.LeftToStore(S.ActorOf(w.sessions, a)).Some? then Some(S.StoreBundle(a))
      else Some(S.Abort(a))
    case Lose(a) => if a in w.turns then Some(S.Abort(a)) else None
  }

  /** What a step does to the jobs. */
  function JobStep(w: World, e: Event): Option<J.Event> {
    match e
    case Queue(j) =>
      if j.Finish? || j.Lose? then None
      else if j.Select? && j.w !in w.jobs.workers && S.ActorOf(w.sessions, j.w) != S.Idle then None
      else Some(j)
    case Finish(a, error) =>
      if AtTurn(w, a, {Completed}) then Some(J.Finish(a, JT.Done, None))
      else if AtTurn(w, a, {Rejected}) then Some(J.Finish(a, JT.Skipped, Some(error)))
      else if AtTurn(w, a, {Raised}) then Some(J.Finish(a, JT.Failed, Some(error)))
      else None
    case Lose(a) => if a in w.turns then Some(J.Lose(a)) else None
    case _ => None
  }

  /** Where a read or write leaves the worker, judged by what it holds before and after. */
  function NextTurn(turn: Turn, before: S.Actor, after: S.Actor): Turn {
    match turn
    case Claimed => if after.InFlight? then Entering else Rejected
    case Entering => if after.Processing? then Inside else Rejected
    case Inside =>
      if after.Idle? then (if before.InFlight? && before.call.Complete? then Completed else Raised)
      else if after.Processing? && after.stage.Leaving? then Raised
      else Inside
    case _ => turn
  }

  function SessionsAfter(w: World, e: Event): S.World {
    var step := SessionStep(w, e);
    if step.Some? then S.Apply(w.sessions, step.value) else w.sessions
  }

  function JobsAfter(w: World, e: Event): J.World {
    var step := JobStep(w, e);
    if step.Some? then J.Apply(w.jobs, step.value) else w.jobs
  }

  function TurnsAfter(w: World, e: Event): map<WorkerId, Turn> {
    match e
    case Queue(j) => if JobStep(w, e).Some? && J.Claims(w.jobs, j) then w.turns[j.w := Claimed] else w.turns
    case Read(a, _) =>
      if SessionStep(w, e).Some? && a in w.turns
      then w.turns[a := NextTurn(w.turns[a], S.ActorOf(w.sessions, a), S.ActorOf(SessionsAfter(w, e), a))]
      else w.turns
    case Write(a) =>
      if SessionStep(w, e).Some? && a in w.turns
      then w.turns[a := NextTurn(w.turns[a], S.ActorOf(w.sessions, a), S.ActorOf(SessionsAfter(w, e), a))]
      else w.turns
    case Raise(a) => if SessionStep(w, e).Some? then w.turns[a := Raised] else w.turns
    case Finish(a, _) => if JobStep(w, e).Some? then w.turns - {a} else w.turns
    case Lose(a) => w.turns - {a}
    case Other(_) => w.turns
  }

  function Apply(w: World, e: Event): World {
    World(SessionsAfter(w, e), JobsAfter(w, e), TurnsAfter(w, e))
  }

  function RunTo(es: seq<Event>): World {
    if es == [] then INIT else Apply(RunTo(es[..|es| - 1]), es[|es| - 1])
  }

  // ---- The two protocols, one by one ----------------------------------------------------------

  /** What the sessions see of a run. */
  function SessionRun(es: seq<Event>): seq<S.Event> {
    if es == [] then []
    else
      var init := es[..|es| - 1];
      var step := SessionStep(RunTo(init), es[|es| - 1]);
      if step.Some? then SessionRun(init) + [step.value] else SessionRun(init)
  }

  /** What the jobs see of a run. */
  function JobRun(es: seq<Event>): seq<J.Event> {
    if es == [] then []
    else
      var init := es[..|es| - 1];
      var step := JobStep(RunTo(init), es[|es| - 1]);
      if step.Some? then JobRun(init) + [step.value] else JobRun(init)
  }

  lemma JobRunNext(js: seq<J.Event>, j: J.Event)
    ensures J.RunTo(js + [j]) == J.Apply(J.RunTo(js), j)
  {
    assert (js + [j])[..|js|] == js;
  }

  /** Each run is one of the session protocol and one of the job protocol, so what holds of those holds of it. */
  lemma {:induction false} RunsOfBoth(es: seq<Event>)
    ensures RunTo(es).sessions == S.RunTo(SessionRun(es))
    ensures RunTo(es).jobs == J.RunTo(JobRun(es))
  {
    if es != [] {
      var init, e := es[..|es| - 1], es[|es| - 1];
      RunsOfBoth(init);
      if SessionStep(RunTo(init), e).Some? {
        S.RunNext(SessionRun(init), SessionStep(RunTo(init), e).value);
      }
      if JobStep(RunTo(init), e).Some? {
        JobRunNext(JobRun(init), JobStep(RunTo(init), e).value);
      }
    }
  }

  lemma BothKeepInv(es: seq<Event>)
    ensures S.Inv(RunTo(es).sessions) && J.Inv(RunTo(es).jobs)
  {
    RunsOfBoth(es);
    SS.RunKeepsInv(SessionRun(es));
    J.RunKeepsInv(JobRun(es));
  }
}
