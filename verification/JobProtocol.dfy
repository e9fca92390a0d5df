/**
 Workers, enqueuers and sweepers over one job table, interleaved statement by statement.

 Each worker follows the loop of run_worker (backend/app/worker/worker.py): select the oldest pending job, claim it
 with a guarded update, hold it while it runs, and mark it; it may also be lost with its job still PROCESSING.
 */
module JobProtocol {
  import opened Prelude
  import opened JobTable

  type ConnId = string

  datatype Pc = Polling | Selected(job: JobId) | Holding(job: JobId)

  datatype World = World(
    now: Time,
    jobs: Jobs,
    inserts: map<ConnId, SessionId>,
    workers: map<WorkerId, Pc>,
    lost: set<JobId>)

  const INIT := World(0, map[], map[], map[], {})

  datatype Event =
    | Tick(d: nat)
    | Check(conn: ConnId, session: SessionId)
    | Insert(conn: ConnId, id: JobId)
    | Select(w: WorkerId, id: JobId)
    | Claim(w: WorkerId)
    | Beat(w: WorkerId, id: JobId)
    | Finish(w: WorkerId, status: Status, error: Option<string>)
    | Lose(w: WorkerId)
    | Sweep(timeout: Time)

  function PcOf(s: World, w: WorkerId): Pc {
    if w in s.workers then s.workers[w] else Polling
  }

  /** The insert of enqueue_job goes through; its check may have been made long ago. */
  predicate Inserts(s: World, e: Event) {
    e.Insert? && e.conn in s.inserts && e.id !in s.jobs
  }

  predicate Claims(s: World, e: Event) {
    e.Claim? && PcOf(s, e.w).Selected? && IsPending(s.jobs, PcOf(s, e.w).job)
  }

  /** One atomic step; creation times are taken in insert order. */
  function Apply(s: World, e: Event): World {
    match e
    case Tick(d) => s.(now := s.now + d)
    case Check(conn, session) => if HasActive(s.jobs, session) then s else s.(inserts := s.inserts[conn := session])
    case Insert(conn, id) =>
      if Inserts(s, e)
      then s.(jobs := s.jobs[id := NewJob(s.inserts[conn], s.now)], now := s.now + 1, inserts := s.inserts - {conn})
      else s
    case Select(w, id) =>
      if PcOf(s, w).Polling? && IsOldestPending(s.jobs, id) then s.(workers := s.workers[w := Selected(id)]) else s
    case Claim(w) =>
      if Claims(s, e) then
        var id := PcOf(s, w).job;
        s.(jobs := Claimed(s.jobs, id, w, s.now), workers := s.workers[w := Holding(id)])
      else if PcOf(s, w).Selected? then s.(workers := s.workers[w := Polling])
      else s
    case Beat(w, id) => s.(jobs := Beaten(s.jobs, id, w, s.now))
    case Finish(w, status, error) =>
      if PcOf(s, w).Holding? && status in {Done, Failed, Skipped}
      then s.(jobs := Marked(s.jobs, PcOf(s, w).job, status, error, s.now), workers := s.workers[w := Polling])
      else s
    case Lose(w) =>
      if PcOf(s, w).Holding? then s.(lost := s.lost + {PcOf(s, w).job}, workers := s.workers[w := Polling]) else s
    case Sweep(timeout) => s.(jobs := Swept(s.jobs, s.now - timeout, s.now))
  }

  function RunTo(es: seq<Event>): World {
    if es == [] then INIT else Apply(RunTo(es[..|es| - 1]), es[|es| - 1])
  }

  // ---- The invariant --------------------------------------------------------------------------

  ghost predicate JobOk(job: Job) {
    && job.attempts == (if job.status == Pending then 0 else 1)
    && (job.worker.Some? <==> job.status != Pending)
    && (job.status == Processing ==> job.heartbeat.Some?)
  }

  ghost predicate WorkerOk(jobs: Jobs, w: WorkerId, pc: Pc) {
    match pc
    case Polling => true
    case Selected(id) => id in jobs && (jobs[id].status == Pending ==> IsOldestPending(jobs, id))
    case Holding(id) => id in jobs && jobs[id].status != Pending && jobs[id].worker == Some(w)
  }

  /** Every PROCESSING job is with the worker it names, unless that worker was lost. */
  ghost predicate HeldOrLost(s: World, id: JobId)
    requires id in s.jobs
  {
    s.jobs[id].status == Processing ==>
      s.jobs[id].worker.Some? && (PcOf(s, s.jobs[id].worker.value) == Holding(id) || id in s.lost)
  }

  ghost predicate Inv(s: World) {
    && (forall id :: id in s.jobs ==> s.jobs[id].created < s.now && JobOk(s.jobs[id]))
    && (forall i, k :: i in s.jobs && k in s.jobs && i != k ==> s.jobs[i].created != s.jobs[k].created)
    && (forall w :: w in s.workers ==> WorkerOk(s.jobs, w, s.workers[w]))
    && (forall id :: id in s.jobs ==> HeldOrLost(s, id))
  }

  function Rank(status: Status): nat {
    match status
    case Pending => 0
    case Processing => 1
    case _ => 2
  }

  /** What no step changes about a job, and the only way its status moves. */
  ghost predicate JobAdvances(job: Job, job': Job) {
    && job'.created == job.created && job'.session == job.session
    && Rank(job.status) <= Rank(job'.status) && job.attempts <= job'.attempts
    && (job.status == Processing && job'.status == Processing ==> job'.worker == job.worker)
    && (job.worker.Some? ==> job'.worker == job.worker)
  }

  lemma StepAdvancesJobs(s: World, e: Event)
    requires Inv(s)
    ensures forall id :: id in s.jobs ==> id in Apply(s, e).jobs && JobAdvances(s.jobs[id], Apply(s, e).jobs[id])
    ensures forall id :: id in Apply(s, e).jobs && id !in s.jobs ==>
              Apply(s, e).jobs[id].status == Pending && Apply(s, e).jobs[id].created == s.now
  {
    if e.Finish? && PcOf(s, e.w).Holding? {
      assert WorkerOk(s.jobs, e.w, s.workers[e.w]);
    }
  }

  lemma StepKeepsJob(s: World, e: Event, id: JobId)
    requires Inv(s) && id in Apply(s, e).jobs
    ensures Apply(s, e).jobs[id].created < Apply(s, e).now && JobOk(Apply(s, e).jobs[id])
  {
    if e.Finish? && PcOf(s, e.w).Holding? {
      assert WorkerOk(s.jobs, e.w, s.workers[e.w]);
    }
    assert id in s.jobs ==> JobOk(s.jobs[id]);
  }

  lemma StepKeepsJobs(s: World, e: Event)
    requires Inv(s)
    ensures forall id :: id in Apply(s, e).jobs ==>
              Apply(s, e).jobs[id].created < Apply(s, e).now && JobOk(Apply(s, e).jobs[id])
    ensures forall i, k :: i in Apply(s, e).jobs && k in Apply(s, e).jobs && i != k ==>
              Apply(s, e).jobs[i].created != Apply(s, e).jobs[k].created
  {
    var s' := Apply(s, e);
    forall id | id in s'.jobs
      ensures s'.jobs[id].created < s'.now && JobOk(s'.jobs[id])
    {
      StepKeepsJob(s, e, id);
    }
    StepAdvancesJobs(s, e);
    forall i, k | i in s'.jobs && k in s'.jobs && i != k
      ensures s'.jobs[i].created != s'.jobs[k].created
    {
      OnlyOneIsNew(s, e, i, k);
      assert i in s.jobs ==> JobAdvances(s.jobs[i], s'.jobs[i]);
      assert k in s.jobs ==> JobAdvances(s.jobs[k], s'.jobs[k]);
    }
  }

  lemma OnlyOneIsNew(s: World, e: Event, i: JobId, k: JobId)
    requires i in Apply(s, e).jobs && k in Apply(s, e).jobs && i != k
    ensures i in s.jobs || k in s.jobs
  {
  }

  lemma StepKeepsOldest(s: World, e: Event, id: JobId)
    requires Inv(s) && IsOldestPending(s.jobs, id) && IsPending(Apply(s, e).jobs, id)
    ensures IsOldestPending(Apply(s, e).jobs, id)
  {
    StepAdvancesJobs(s, e);
    var jobs' := Apply(s, e).jobs;
    forall k | k in jobs' && jobs'[k].status == Pending
      ensures jobs'[id].created <= jobs'[k].created
    {
      if k in s.jobs {
        assert JobAdvances(s.jobs[k], jobs'[k]);
        assert s.jobs[k].status == Pending;
      }
    }
  }

  lemma StepKeepsWorkers(s: World, e: Event, w: WorkerId)
    requires Inv(s) && w in Apply(s, e).workers
    ensures WorkerOk(Apply(s, e).jobs, w, Apply(s, e).workers[w])
  {
    StepAdvancesJobs(s, e);
    var s' := Apply(s, e);
    if w in s.workers && s.workers[w] == s'.workers[w] {
      assert WorkerOk(s.jobs, w, s.workers[w]);
      if s.workers[w].Selected? && s'.jobs[s.workers[w].job].status == Pending {
        assert JobAdvances(s.jobs[s.workers[w].job], s'.jobs[s.workers[w].job]);
        StepKeepsOldest(s, e, s.workers[w].job);
      }
      if s.workers[w].Holding? {
        assert JobAdvances(s.jobs[s.workers[w].job], s'.jobs[s.workers[w].job]);
      }
    }
  }

  lemma StepKeepsHeld(s: World, e: Event, id: JobId)
    requires Inv(s) && id in Apply(s, e).jobs
    ensures HeldOrLost(Apply(s, e), id)
  {
    StepAdvancesJobs(s, e);
    if id in s.jobs {
      assert HeldOrLost(s, id) && JobOk(s.jobs[id]);
      assert JobAdvances(s.jobs[id], Apply(s, e).jobs[id]);
    }
  }

  lemma StepKeepsInv(s: World, e: Event)
    requires Inv(s)
    ensures Inv(Apply(s, e))
  {
    var s' := Apply(s, e);
    StepKeepsJobs(s, e);
    forall w | w in s'.workers
      ensures WorkerOk(s'.jobs, w, s'.workers[w])
    {
      StepKeepsWorkers(s, e, w);
    }
    forall id | id in s'.jobs
      ensures HeldOrLost(s', id)
    {
      StepKeepsHeld(s, e, id);
    }
  }

  lemma {:induction false} RunKeepsInv(es: seq<Event>)
    ensures Inv(RunTo(es))
  {
    if es != [] {
      RunKeepsInv(es[..|es| - 1]);
      StepKeepsInv(RunTo(es[..|es| - 1]), es[|es| - 1]);
    }
  }
}
