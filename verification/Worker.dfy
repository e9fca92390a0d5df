/**
 The worker's loop over the job queue and the session table (backend/app/worker/worker.py), undisturbed by others.
 JobProtocol interleaves the same statements with those of other workers.
 */
module Worker {
  import opened Prelude
  import S = StateMachine
  import T = SessionTable
  import opened JobTable

  /** How run_worker_pipeline ends: it completes the session, fails it and raises, or raises with nothing written. */
  datatype Pipeline = Completes(state: S.State, outcome: string) | Fails(state: S.State) | Raises(error: string)

  const TERMINAL: set<Status> := {Done, Failed, Skipped}

  /** The row is free: acquire_lease succeeds on it. */
  predicate Leasable(rows: T.Rows, id: SessionId) {
    id in rows && rows[id].status in T.LEASE_ACQUIRABLE_STATES && rows[id].lease == None
  }

  /** The status the job of a turn ends with. */
  function EndStatus(rows: T.Rows, session: SessionId, p: Pipeline): Status {
    if !Leasable(rows, session) then Skipped
    else if p.Completes? && S.ValidTransition(S.Verifying, p.state) then Done
    else Failed
  }

  /** The row of a session leased for the pipeline, once the pipeline has ended. */
  function PipelineRow(row: T.Row, p: Pipeline): T.Row {
    match p
    case Completes(state, outcome) =>
      if S.ValidTransition(row.status, state) then T.Row(state, None, None, Some("COMPLETED"), Some(outcome)) else row
    case Fails(state) =>
      if S.ValidTransition(row.status, state) then T.Row(state, None, None, Some("FAILED"), None) else row
    case Raises(_) => row
  }

  /** The session rows after a job's session has been leased and run, or left alone if it could not be leased. */
  function ProcessedRows(rows: T.Rows, session: SessionId, worker: WorkerId, p: Pipeline): T.Rows {
    if !Leasable(rows, session) then rows
    else rows[session := PipelineRow(T.Written(rows[session], S.Verifying, T.AcquireValues(worker)), p)]
  }

  /** What a turn that took `job` does to the table: that job is finished, the others are only swept. */
  ghost predicate TookJob(
    before: Jobs, after: Jobs, job: JobId, worker: WorkerId, status: Status, cutoff: Time, now: Time)
  {
    && IsOldestPending(before, job) && after.Keys == before.Keys
    && after[job].status == status && after[job].worker == Some(worker) && after[job].heartbeat == None
    && after[job].attempts == before[job].attempts + 1 && after[job].created == before[job].created
    && forall k :: k in before && k != job ==> after[k] == SweptJob(before[k], cutoff, now)
  }

  /** Sweeping fails stale PROCESSING jobs and leaves the pending ones alone. */
  lemma SweepKeepsPending(jobs: Jobs, cutoff: Time, now: Time)
    ensures PendingIds(Swept(jobs, cutoff, now)) == PendingIds(jobs)
    ensures forall k :: k in jobs && jobs[k].status == Pending ==> Swept(jobs, cutoff, now)[k] == jobs[k]
    ensures forall k :: IsOldestPending(Swept(jobs, cutoff, now), k) ==> IsOldestPending(jobs, k)
  {
    var swept := Swept(jobs, cutoff, now);
    forall k | IsOldestPending(swept, k)
      ensures IsOldestPending(jobs, k)
    {
      forall j | j in jobs && jobs[j].status == Pending
        ensures jobs[k].created <= jobs[j].created
      {
        assert swept[j] == jobs[j];
      }
    }
  }

  ghost predicate OldestFirst(jobs: Jobs, taken: seq<JobId>) {
    && (forall k :: k in taken ==> k in jobs)
    && forall i, j :: 0 <= i < j < |taken| ==> jobs[taken[i]].created <= jobs[taken[j]].created
  }

  /** The taken jobs are finished and were the oldest; all others that were pending still are. */
  ghost predicate Progress(start: Jobs, jobs: Jobs, taken: seq<JobId>) {
    && jobs.Keys == start.Keys && (forall k :: k in start ==> jobs[k].created == start[k].created)
    && PendingIds(jobs) == PendingIds(start) - (set k | k in taken)
    && (forall k :: k in taken ==> k in PendingIds(start) && k in jobs && jobs[k].status in TERMINAL)
    && OldestFirst(start, taken)
    && forall k, p :: k in taken && p in PendingIds(jobs) ==> start[k].created <= start[p].created
  }

  lemma ProgressAfterSweep(start: Jobs, jobs: Jobs, taken: seq<JobId>, cutoff: Time, now: Time)
    requires Progress(start, jobs, taken)
    ensures Progress(start, Swept(jobs, cutoff, now), taken)
  {
    SweepKeepsPending(jobs, cutoff, now);
  }

  lemma PendingAfterJob(
    before: Jobs, after: Jobs, job: JobId, worker: WorkerId, status: Status, cutoff: Time, now: Time)
    requires TookJob(before, after, job, worker, status, cutoff, now) && status in TERMINAL
    ensures job in PendingIds(before) && PendingIds(after) == PendingIds(before) - {job}
    ensures forall p :: p in PendingIds(before) ==> before[job].created <= before[p].created
  {
    forall k | k in before && k != job
      ensures after[k].status == Pending <==> before[k].status == Pending
    {
      assert after[k] == SweptJob(before[k], cutoff, now);
    }
  }

  lemma ProgressAfterJob(
    start: Jobs, before: Jobs, after: Jobs, taken: seq<JobId>, job: JobId, worker: WorkerId, status: Status,
    cutoff: Time, now: Time)
    requires Progress(start, before, taken) && status in TERMINAL
    requires TookJob(before, after, job, worker, status, cutoff, now)
    ensures Progress(start, after, taken + [job])
  {
    PendingAfterJob(before, after, job, worker, status, cutoff, now);
    var longer := taken + [job];
    assert forall k :: k in longer <==> k in taken || k == job;
    forall k | k in taken
      ensures after[k].status in TERMINAL
    {
      assert k !in PendingIds(before) && k != job;
      assert after[k] == SweptJob(before[k], cutoff, now);
    }
    forall i, j | 0 <= i < j < |longer|
      ensures start[longer[i]].created <= start[longer[j]].created
    {
      assert longer[i] == taken[i] && longer[i] in taken;
    }
  }

  /** What a turn of the loop does to the job table. */
  ghost predicate TurnDid(before: Jobs, after: Jobs, job: Option<JobId>, worker: WorkerId, cutoff: Time, now: Time) {
    match job
    case None => PendingIds(before) == {} && after == Swept(before, cutoff, now)
    case Some(k) =>
      k in after && after[k].status in TERMINAL && TookJob(before, after, k, worker, after[k].status, cutoff, now)
  }

  lemma TookAfterMark(
    before: Jobs, job: JobId, worker: WorkerId, status: Status, error: Option<string>, cutoff: Time, now: Time)
    requires IsOldestPending(Swept(before, cutoff, now), job)
    ensures var swept := Swept(before, cutoff, now);
            TookJob(before, Marked(swept[job := ClaimedJob(swept[job], worker, now)], job, status, error, now),
                    job, worker, status, cutoff, now)
  {
    SweepKeepsPending(before, cutoff, now);
  }

  function AsList(job: Option<JobId>): seq<JobId> {
    if job.Some? then [job.value] else []
  }

  lemma ProgressAfterTurn(
    start: Jobs, before: Jobs, after: Jobs, taken: seq<JobId>, job: Option<JobId>, worker: WorkerId, cutoff: Time,
    now: Time)
    requires Progress(start, before, taken) && TurnDid(before, after, job, worker, cutoff, now)
    ensures Progress(start, after, taken + AsList(job))
    ensures |PendingIds(after)| + |AsList(job)| == |PendingIds(before)|
    ensures job.None? ==> PendingIds(after) == {}
  {
    if job.Some? {
      var status := after[job.value].status;
      ProgressAfterJob(start, before, after, taken, job.value, worker, status, cutoff, now);
      PendingAfterJob(before, after, job.value, worker, status, cutoff, now);
    } else {
      ProgressAfterSweep(start, before, taken, cutoff, now);
      SweepKeepsPending(before, cutoff, now);
      assert taken + [] == taken;
    }
  }

  /** After `turns` turns: one job was taken in each of them until none was left. */
  ghost predicate RanFor(start: Jobs, jobs: Jobs, taken: seq<JobId>, turns: nat) {
    && Progress(start, jobs, taken)
    && |PendingIds(jobs)| + |taken| == |PendingIds(start)|
    && (|taken| == turns || (|taken| < turns && PendingIds(jobs) == {}))
  }

  lemma RanForNone(start: Jobs)
    ensures RanFor(start, start, [], 0)
  {
    var none: seq<JobId> := [];
    assert (set k | k in none) == {};
  }

  lemma RanForOneMore(
    start: Jobs, before: Jobs, after: Jobs, taken: seq<JobId>, turns: nat, job: Option<JobId>, worker: WorkerId,
    cutoff: Time, now: Time)
    requires RanFor(start, before, taken, turns) && TurnDid(before, after, job, worker, cutoff, now)
    ensures RanFor(start, after, taken + AsList(job), turns + 1)
  {
    ProgressAfterTurn(start, before, after, taken, job, worker, cutoff, now);
  }

  lemma RanForCount(start: Jobs, jobs: Jobs, taken: seq<JobId>, turns: nat)
    requires RanFor(start, jobs, taken, turns)
    ensures |taken| == if turns < |PendingIds(start)| then turns else |PendingIds(start)|
  {
  }

  class WorkerProcess {
    const queue: JobQueue
    const repo: T.Repository
    const id: WorkerId
    const sessionTimeout: Time
    const jobTimeout: Time

    constructor (queue: JobQueue, repo: T.Repository, id: WorkerId, sessionTimeout: Time, jobTimeout: Time)
      ensures this.queue == queue && this.repo == repo && this.id == id
      ensures this.sessionTimeout == sessionTimeout && this.jobTimeout == jobTimeout
    {
      this.queue, this.repo, this.id := queue, repo, id;
      this.sessionTimeout, this.jobTimeout := sessionTimeout, jobTimeout;
    }

    /** run_worker_pipeline under the worker's lease; `raised` says that it ended with an exception. */
    method RunPipeline(session: SessionId, p: Pipeline) returns (raised: bool)
      requires session in repo.rows && repo.rows[session].status == S.Verifying
      modifies repo
      ensures raised <==> !(p.Completes? && S.ValidTransition(S.Verifying, p.state))
      ensures repo.rows == old(repo.rows)[session := PipelineRow(old(repo.rows)[session], p)]
    {
      match p {
        case Completes(state, outcome) =>
          var result := repo.CompleteProcessing(session, state, outcome);
          return !result.Moved?;
        case Fails(state) =>
          var _ := repo.FailProcessing(session, state);
          return true;
        case Raises(_) =>
          return true;
      }
    }

    /** _mark_stale_work */
    method MarkStaleWork(now: Time)
      modifies queue, repo
      ensures repo.rows == T.SweptRows(old(repo.rows), now - sessionTimeout)
      ensures queue.jobs == Swept(old(queue.jobs), now - jobTimeout, now)
    {
      var _ := repo.MarkStaleSessions(now, sessionTimeout);
      var _ := queue.MarkStaleProcessingJobsFailed(now, jobTimeout);
    }

    /** What a turn does with the job it has claimed: skip it, or run it and mark it. */
    method Process(job: JobId, now: Time, p: Pipeline) returns (status: Status, ghost error: Option<string>)
      requires job in queue.jobs
      modifies queue, repo
      ensures status == EndStatus(old(repo.rows), old(queue.jobs)[job].session, p)
      ensures queue.jobs == Marked(old(queue.jobs), job, status, error, now)
      ensures repo.rows == ProcessedRows(old(repo.rows), old(queue.jobs)[job].session, id, p)
    {
      var session := queue.jobs[job].session;
      var acquired := repo.AcquireLease(session, id);
      if !acquired {
        error := Some("Session lease could not be acquired");
        queue.MarkTerminal(job, Skipped, Some("Session lease could not be acquired"), now);
        return Skipped, error;
      }
      var raised := RunPipeline(session, p);
      if raised {
        var reason := if p.Raises? then p.error else "Session could not be completed";
        queue.MarkTerminal(job, Failed, Some(reason), now);
        return Failed, Some(reason);
      }
      queue.MarkTerminal(job, Done, None, now);
      return Done, None;
    }

    /** A turn up to the claim: sweep, then take an oldest pending job. */
    method TakeJob(now: Time) returns (job: Option<JobId>)
      modifies queue, repo
      ensures repo.rows == T.SweptRows(old(repo.rows), now - sessionTimeout)
      ensures job.None? ==>
                PendingIds(old(queue.jobs)) == {} && queue.jobs == Swept(old(queue.jobs), now - jobTimeout, now)
      ensures job.Some? ==>
                var swept := Swept(old(queue.jobs), now - jobTimeout, now);
                && IsOldestPending(swept, job.value)
                && queue.jobs == swept[job.value := ClaimedJob(swept[job.value], id, now)]
    {
      SweepKeepsPending(queue.jobs, now - jobTimeout, now);
      MarkStaleWork(now);
      job := queue.DequeueJob(id, now);
    }

    /** One turn of the loop of run_worker. */
    method Turn(now: Time, p: Pipeline) returns (job: Option<JobId>)
      modifies queue, repo
      ensures TurnDid(old(queue.jobs), queue.jobs, job, id, now - jobTimeout, now)
      ensures job.Some? ==>
                && job.value in old(queue.jobs)
                && queue.jobs[job.value].status ==
                   EndStatus(T.SweptRows(old(repo.rows), now - sessionTimeout), old(queue.jobs)[job.value].session, p)
                && repo.rows == ProcessedRows(T.SweptRows(old(repo.rows), now - sessionTimeout),
                                              old(queue.jobs)[job.value].session, id, p)
      ensures job.None? ==> repo.rows == T.SweptRows(old(repo.rows), now - sessionTimeout)
    {
      ghost var before := queue.jobs;
      job := TakeJob(now);
      if job.Some? {
        var status; ghost var error;
        status, error := Process(job.value, now, p);
        TookAfterMark(before, job.value, id, status, error, now - jobTimeout, now);
      }
    }

    method NextTurn(ghost start: Jobs, before: seq<JobId>, i: nat, now: Time, p: Pipeline) returns (taken: seq<JobId>)
      requires RanFor(start, queue.jobs, before, i)
      modifies queue, repo
      ensures RanFor(start, queue.jobs, taken, i + 1)
    {
      ghost var jobs := queue.jobs;
      var job := Turn(now, p);
      RanForOneMore(start, jobs, queue.jobs, before, i, job, id, now - jobTimeout, now);
      taken := before + AsList(job);
    }

    /**
     * run_worker until it is stopped after `turns` turns: alone, it takes the pending jobs oldest first, one a turn
     * while there are any, and leaves each of them finished.
     */
    method Run(turns: nat, clock: nat -> Time, pipelines: nat -> Pipeline) returns (taken: seq<JobId>)
      modifies queue, repo
      ensures Progress(old(queue.jobs), queue.jobs, taken)
      ensures |taken| == if turns < |PendingIds(old(queue.jobs))| then turns else |PendingIds(old(queue.jobs))|
    {
      taken := [];
      ghost var start := queue.jobs;
      RanForNone(start);
      for i := 0 to turns
        invariant RanFor(start, queue.jobs, taken, i)
      {
        taken := NextTurn(start, taken, i, clock(i), pipelines(i));
      }
      RanForCount(start, queue.jobs, taken, turns);
    }
  }
}
