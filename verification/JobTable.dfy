/**
 The verification_jobs rows and the SQL statements over them (backend/app/workflow/job_queue.py).

 Each statement is a function on the table, which JobProtocol interleaves, and a method of class JobQueue.
 */
module JobTable {
  import opened Prelude

  type JobId = nat
  type SessionId = string
  type WorkerId = string
  type Time = int

  datatype Status = Pending | Processing | Done | Failed | Skipped

  const ACTIVE_JOB_STATUSES: set<Status> := {Pending, Processing}

  datatype Job = Job(
    session: SessionId,
    status: Status,
    worker: Option<WorkerId>,
    attempts: nat,
    error: Option<string>,
    created: Time,
    started: Option<Time>,
    completed: Option<Time>,
    heartbeat: Option<Time>)

  type Jobs = map<JobId, Job>

  function NewJob(session: SessionId, created: Time): Job {
    Job(session, Pending, None, 0, None, created, None, None, None)
  }

  predicate IsPending(jobs: Jobs, id: JobId) {
    id in jobs && jobs[id].status == Pending
  }

  predicate HasActive(jobs: Jobs, session: SessionId) {
    exists id :: id in jobs && jobs[id].session == session && jobs[id].status in ACTIVE_JOB_STATUSES
  }

  /** `id` is what SELECT ... WHERE status = PENDING ORDER BY created_at ASC may return first. */
  predicate IsOldestPending(jobs: Jobs, id: JobId) {
    && IsPending(jobs, id)
    && forall k :: k in jobs && jobs[k].status == Pending ==> jobs[id].created <= jobs[k].created
  }

  function ClaimedJob(job: Job, worker: WorkerId, now: Time): Job {
    job.(status := Processing, worker := Some(worker), attempts := job.attempts + 1,
         started := if job.started.Some? then job.started else Some(now), heartbeat := Some(now))
  }

  function Claimed(jobs: Jobs, id: JobId, worker: WorkerId, now: Time): Jobs {
    if IsPending(jobs, id) then jobs[id := ClaimedJob(jobs[id], worker, now)] else jobs
  }

  predicate MayBeat(jobs: Jobs, id: JobId, worker: WorkerId) {
    id in jobs && jobs[id].worker == Some(worker) && jobs[id].status == Processing
  }

  function Beaten(jobs: Jobs, id: JobId, worker: WorkerId, now: Time): Jobs {
    if MayBeat(jobs, id, worker) then jobs[id := jobs[id].(heartbeat := Some(now))] else jobs
  }

  predicate Stale(job: Job, cutoff: Time) {
    job.status == Processing && job.heartbeat.Some? && job.heartbeat.value < cutoff
  }

  function SweptJob(job: Job, cutoff: Time, now: Time): Job {
    if Stale(job, cutoff)
    then job.(status := Failed, error := Some("Worker heartbeat expired"), completed := Some(now))
    else job
  }

  function Swept(jobs: Jobs, cutoff: Time, now: Time): Jobs {
    map id | id in jobs :: SweptJob(jobs[id], cutoff, now)
  }

  /** _mark_terminal, which has no guard on the present status. */
  function Marked(jobs: Jobs, id: JobId, status: Status, error: Option<string>, now: Time): Jobs {
    if id in jobs
    then jobs[id := jobs[id].(status := status, error := error, completed := Some(now), heartbeat := None)]
    else jobs
  }

  /** Some pending job is oldest whenever some job is pending. */
  lemma {:induction false} OldestExists(jobs: Jobs, among: set<JobId>) returns (id: JobId)
    requires among != {} && among <= jobs.Keys
    ensures id in among && forall k :: k in among ==> jobs[id].created <= jobs[k].created
    decreases |among|
  {
    id :| id in among;
    if among != {id} {
      var rest := OldestExists(jobs, among - {id});
      if jobs[rest].created < jobs[id].created {
        id := rest;
      }
    }
  }

  function PendingIds(jobs: Jobs): set<JobId> {
    set id | id in jobs && jobs[id].status == Pending
  }

  function ActiveIds(jobs: Jobs, session: SessionId): set<JobId> {
    set id | id in jobs && jobs[id].session == session && jobs[id].status in ACTIVE_JOB_STATUSES
  }

  class JobQueue {
    var jobs: Jobs

    constructor ()
      ensures jobs == map[]
    {
      jobs := map[];
    }

    /** enqueue_job with nothing between its query and its insert; `id` is the fresh key. */
    method EnqueueJob(session: SessionId, id: JobId, now: Time) returns (job: JobId)
      requires id !in jobs
      modifies this
      ensures HasActive(old(jobs), session) ==>
                && jobs == old(jobs) && job in ActiveIds(jobs, session)
                && forall k :: k in ActiveIds(jobs, session) ==> jobs[job].created <= jobs[k].created
      ensures !HasActive(old(jobs), session) ==> job == id && jobs == old(jobs)[id := NewJob(session, now)]
    {
      var active := ActiveIds(jobs, session);
      if active != {} {
        ghost var _ := OldestExists(jobs, active);
        var k :| k in active && forall i :: i in active ==> jobs[k].created <= jobs[i].created;
        return k;
      }
      assert forall k :: k in jobs ==> k !in active;
      jobs := jobs[id := NewJob(session, now)];
      return id;
    }

    /** The SELECT of dequeue_job. */
    method SelectOldestPending() returns (job: Option<JobId>)
      ensures job.None? ==> forall id :: id in jobs ==> jobs[id].status != Pending
      ensures job.Some? ==> IsOldestPending(jobs, job.value)
    {
      var pending := PendingIds(jobs);
      assert forall id :: IsPending(jobs, id) ==> id in pending;
      if pending == {} {
        assert forall id :: id in jobs && jobs[id].status == Pending ==> id in pending;
        return None;
      }
      ghost var _ := OldestExists(jobs, pending);
      var id :| id in pending && forall k :: k in pending ==> jobs[id].created <= jobs[k].created;
      return Some(id);
    }

    /** The guarded UPDATE of dequeue_job. */
    method Claim(id: JobId, worker: WorkerId, now: Time) returns (claimed: bool)
      modifies this
      ensures claimed == IsPending(old(jobs), id)
      ensures jobs == Claimed(old(jobs), id, worker, now)
    {
      claimed := id in jobs && jobs[id].status == Pending;
      if claimed {
        jobs := jobs[id := ClaimedJob(jobs[id], worker, now)];
      }
    }

    /** dequeue_job with nothing between its two statements: it takes an oldest pending job if there is one. */
    method DequeueJob(worker: WorkerId, now: Time) returns (job: Option<JobId>)
      modifies this
      ensures job.None? <==> PendingIds(old(jobs)) == {}
      ensures job.None? ==> jobs == old(jobs)
      ensures job.Some? ==>
                && IsOldestPending(old(jobs), job.value)
                && jobs == old(jobs)[job.value := ClaimedJob(old(jobs)[job.value], worker, now)]
    {
      job := SelectOldestPending();
      if job.Some? {
        assert job.value in PendingIds(jobs);
        var claimed := Claim(job.value, worker, now);
      } else {
        assert PendingIds(jobs) == {};
      }
    }

    method UpdateJobHeartbeat(id: JobId, worker: WorkerId, now: Time) returns (accepted: bool)
      modifies this
      ensures accepted == MayBeat(old(jobs), id, worker)
      ensures jobs == Beaten(old(jobs), id, worker, now)
    {
      accepted := MayBeat(jobs, id, worker);
      if accepted {
        jobs := jobs[id := jobs[id].(heartbeat := Some(now))];
      }
    }

    method MarkStaleProcessingJobsFailed(now: Time, timeout: Time) returns (rowcount: nat)
      modifies this
      ensures jobs == Swept(old(jobs), now - timeout, now)
      ensures rowcount == |set id | id in old(jobs) && Stale(old(jobs)[id], now - timeout)|
    {
      var cutoff := now - timeout;
      rowcount := |set id | id in jobs && Stale(jobs[id], cutoff)|;
      jobs := map id | id in jobs :: SweptJob(jobs[id], cutoff, now);
    }

    method MarkTerminal(id: JobId, status: Status, error: Option<string>, now: Time)
      requires status in {Done, Failed, Skipped}
      modifies this
      ensures jobs == Marked(old(jobs), id, status, error, now)
    {
      if id in jobs {
        jobs := jobs[id := jobs[id].(status := status, error := error, completed := Some(now), heartbeat := None)];
      }
    }
  }
}
