/** Claim order, single claims, sweeps and duplicate jobs, over every run of JobProtocol. */
module JobSafety {
  import opened Prelude
  import opened JobTable
  import opened JobProtocol

  lemma RunStep(es: seq<Event>, k: nat)
    requires k < |es|
    ensures RunTo(es[..k + 1]) == Apply(RunTo(es[..k]), es[k])
    ensures Inv(RunTo(es[..k]))
  {
    assert es[..k + 1][..k] == es[..k];
    RunKeepsInv(es[..k]);
  }

  // ---- Claims ---------------------------------------------------------------------------------

  /** The successful claims of a run, in order, each with its worker. */
  function ClaimLog(es: seq<Event>): seq<(JobId, WorkerId)> {
    if es == [] then []
    else
      var s, e := RunTo(es[..|es| - 1]), es[|es| - 1];
      ClaimLog(es[..|es| - 1]) + (if Claims(s, e) then [(PcOf(s, e.w).job, e.w)] else [])
  }

  ghost predicate LogNamed(log: seq<(JobId, WorkerId)>, jobs: Jobs) {
    forall i :: 0 <= i < |log| ==>
      log[i].0 in jobs && jobs[log[i].0].status != Pending && jobs[log[i].0].worker == Some(log[i].1)
  }

  /** The claims are in creation order, and every job still PENDING was created after all of them. */
  ghost predicate LogOrdered(log: seq<(JobId, WorkerId)>, jobs: Jobs)
    requires LogNamed(log, jobs)
  {
    && (forall i, k :: 0 <= i < k < |log| ==> jobs[log[i].0].created < jobs[log[k].0].created)
    && (forall i, id :: 0 <= i < |log| && IsPending(jobs, id) ==> jobs[log[i].0].created < jobs[id].created)
  }

  predicate Logged(log: seq<(JobId, WorkerId)>, id: JobId) {
    exists i :: 0 <= i < |log| && log[i].0 == id
  }

  ghost predicate LogOk(log: seq<(JobId, WorkerId)>, jobs: Jobs) {
    && LogNamed(log, jobs)
    && LogOrdered(log, jobs)
    && forall id :: id in jobs && jobs[id].status != Pending ==> Logged(log, id)
  }

  /** A job selected earlier and still PENDING is still the oldest PENDING job when it is claimed. */
  lemma ClaimedJobIsOldest(es: seq<Event>, w: WorkerId)
    requires Claims(RunTo(es), Claim(w))
    ensures IsOldestPending(RunTo(es).jobs, PcOf(RunTo(es), w).job)
  {
    RunKeepsInv(es);
    assert WorkerOk(RunTo(es).jobs, w, RunTo(es).workers[w]);
  }

  /** `jobs'` differs from `jobs` by new jobs, created later, and by changes to jobs that were already claimed. */
  ghost predicate NothingClaimed(jobs: Jobs, jobs': Jobs) {
    && (forall id :: id in jobs ==>
          && id in jobs' && jobs'[id].created == jobs[id].created
          && (jobs'[id].status == Pending <==> jobs[id].status == Pending)
          && (jobs[id].worker.Some? ==> jobs'[id].worker == jobs[id].worker))
    && (forall id, k :: id in jobs' && id !in jobs && k in jobs ==>
          jobs'[id].status == Pending && jobs[k].created < jobs'[id].created)
    && (jobs == map[] ==> forall id :: id in jobs' ==> jobs'[id].status == Pending)
  }

  lemma StepWithoutClaim(s: World, e: Event)
    requires Inv(s) && !Claims(s, e)
    ensures NothingClaimed(s.jobs, Apply(s, e).jobs)
  {
    StepAdvancesJobs(s, e);
    forall id | id in s.jobs
      ensures Apply(s, e).jobs[id].status == Pending <==> s.jobs[id].status == Pending
    {
      assert JobAdvances(s.jobs[id], Apply(s, e).jobs[id]);
      if e.Finish? && PcOf(s, e.w).Holding? {
        assert WorkerOk(s.jobs, e.w, s.workers[e.w]);
      }
    }
  }

  lemma LogOkWithoutClaim(log: seq<(JobId, WorkerId)>, jobs: Jobs, jobs': Jobs)
    requires LogOk(log, jobs) && NothingClaimed(jobs, jobs')
    ensures LogOk(log, jobs')
  {
    forall i, id | 0 <= i < |log| && IsPending(jobs', id)
      ensures jobs'[log[i].0].created < jobs'[id].created
    {
      if id in jobs {
        assert IsPending(jobs, id);
      }
    }
  }

  lemma LogOkWithClaim(log: seq<(JobId, WorkerId)>, jobs: Jobs, id: JobId, w: WorkerId, now: Time)
    requires LogOk(log, jobs) && IsOldestPending(jobs, id)
    requires forall k :: k in jobs && k != id ==> jobs[k].created != jobs[id].created
    ensures LogOk(log + [(id, w)], Claimed(jobs, id, w, now))
  {
    ClaimKeepsOrder(log, jobs, id, w, now);
    ClaimKeepsLogged(log, jobs, id, w, now);
  }

  lemma ClaimKeepsOrder(log: seq<(JobId, WorkerId)>, jobs: Jobs, id: JobId, w: WorkerId, now: Time)
    requires LogNamed(log, jobs) && LogOrdered(log, jobs) && IsOldestPending(jobs, id)
    requires forall k :: k in jobs && k != id ==> jobs[k].created != jobs[id].created
    ensures LogNamed(log + [(id, w)], Claimed(jobs, id, w, now))
    ensures LogOrdered(log + [(id, w)], Claimed(jobs, id, w, now))
  {
    var jobs' := Claimed(jobs, id, w, now);
    var log' := log + [(id, w)];
    forall i | 0 <= i < |log|
      ensures log[i].0 != id && log'[i] == log[i] && jobs[log[i].0].created < jobs[id].created
    {
      assert IsPending(jobs, id);
    }
    assert LogNamed(log', jobs');
    forall i, k | 0 <= i < |log'| && IsPending(jobs', k)
      ensures jobs'[log'[i].0].created < jobs'[k].created
    {
      assert IsPending(jobs, k);
    }
  }

  lemma ClaimKeepsLogged(log: seq<(JobId, WorkerId)>, jobs: Jobs, id: JobId, w: WorkerId, now: Time)
    requires LogOk(log, jobs) && IsPending(jobs, id)
    ensures var jobs' := Claimed(jobs, id, w, now);
            forall k :: k in jobs' && jobs'[k].status != Pending ==> Logged(log + [(id, w)], k)
  {
    var jobs', log' := Claimed(jobs, id, w, now), log + [(id, w)];
    forall k | k in jobs' && jobs'[k].status != Pending
      ensures Logged(log', k)
    {
      if k == id {
        assert log'[|log|].0 == id;
      } else {
        assert Logged(log, k);
        var i :| 0 <= i < |log| && log[i].0 == k;
        assert log'[i].0 == k;
      }
    }
  }

  lemma LogOkStep(es: seq<Event>, e: Event)
    requires LogOk(ClaimLog(es), RunTo(es).jobs)
    ensures LogOk(ClaimLog(es) + (if Claims(RunTo(es), e) then [(PcOf(RunTo(es), e.w).job, e.w)] else []),
                  Apply(RunTo(es), e).jobs)
  {
    var s := RunTo(es);
    RunKeepsInv(es);
    if Claims(s, e) {
      ClaimedJobIsOldest(es, e.w);
      LogOkWithClaim(ClaimLog(es), s.jobs, PcOf(s, e.w).job, e.w, s.now);
    } else {
      StepWithoutClaim(s, e);
      LogOkWithoutClaim(ClaimLog(es), s.jobs, Apply(s, e).jobs);
      assert ClaimLog(es) + [] == ClaimLog(es);
    }
  }

  /**
   Concurrent workers claim jobs in global creation order. So no job is claimed twice, and a job
   that is past PENDING was claimed, by the one worker its row names for ever after.
   */
  lemma {:induction false} ClaimsInCreationOrder(es: seq<Event>)
    ensures LogOk(ClaimLog(es), RunTo(es).jobs)
  {
    if es != [] {
      ClaimsInCreationOrder(es[..|es| - 1]);
      LogOkStep(es[..|es| - 1], es[|es| - 1]);
    }
  }

  /** The log says that worker `w` claimed the job. */
  predicate ClaimedBy(log: seq<(JobId, WorkerId)>, id: JobId, w: WorkerId) {
    exists i :: 0 <= i < |log| && log[i] == (id, w)
  }

  lemma LoggedByOwner(log: seq<(JobId, WorkerId)>, jobs: Jobs, id: JobId)
    requires LogOk(log, jobs) && id in jobs
    ensures jobs[id].status != Pending ==> ClaimedBy(log, id, jobs[id].worker.GetOr(""))
    ensures jobs[id].status == Pending ==> forall w :: !ClaimedBy(log, id, w)
    ensures forall i, k :: 0 <= i < |log| && 0 <= k < |log| && log[i].0 == log[k].0 == id ==> i == k
  {
    if jobs[id].status != Pending {
      assert Logged(log, id);
      var i :| 0 <= i < |log| && log[i].0 == id;
      assert jobs[log[i].0].worker == Some(log[i].1);
      assert log[i] == (id, jobs[id].worker.GetOr(""));
    }
  }

  /** Each job is claimed at most once; it has been attempted once exactly when its worker has claimed it. */
  lemma ClaimedAtMostOnce(es: seq<Event>, id: JobId)
    requires id in RunTo(es).jobs
    ensures var log, job := ClaimLog(es), RunTo(es).jobs[id];
            && job.attempts <= 1
            && (job.attempts == 1 <==> ClaimedBy(log, id, job.worker.GetOr("")))
            && forall i, k :: 0 <= i < |log| && 0 <= k < |log| && log[i].0 == log[k].0 == id ==> i == k
  {
    ClaimsInCreationOrder(es);
    RunKeepsInv(es);
    assert JobOk(RunTo(es).jobs[id]);
    LoggedByOwner(ClaimLog(es), RunTo(es).jobs, id);
  }

  // ---- Statuses -------------------------------------------------------------------------------

  /**
   PENDING and PROCESSING are never re-entered and DONE, FAILED and SKIPPED are never left, whatever late
   heartbeats and marks arrive; the claiming worker, the session and the creation time stay.
   */
  lemma {:induction false} JobsOnlyAdvance(es: seq<Event>, i: nat, id: JobId)
    requires i <= |es| && id in RunTo(es[..i]).jobs
    ensures id in RunTo(es).jobs && JobAdvances(RunTo(es[..i]).jobs[id], RunTo(es).jobs[id])
    decreases |es| - i
  {
    if i == |es| {
      assert es[..i] == es;
    } else {
      RunStep(es, i);
      StepAdvancesJobs(RunTo(es[..i]), es[i]);
      assert JobAdvances(RunTo(es[..i]).jobs[id], RunTo(es[..i + 1]).jobs[id]);
      JobsOnlyAdvance(es, i + 1, id);
      StatusesSettle(RunTo(es[..i]).jobs[id], RunTo(es[..i + 1]).jobs[id], RunTo(es).jobs[id]);
    }
  }

  lemma StatusesSettle(a: Job, b: Job, c: Job)
    requires JobAdvances(a, b) && JobAdvances(b, c)
    ensures JobAdvances(a, c)
  {
  }

  lemma SweptHeartbeats(s: World, timeout: Time, id: JobId)
    requires Inv(s) && id in Apply(s, Sweep(timeout)).jobs
    ensures var job := Apply(s, Sweep(timeout)).jobs[id];
            job.status == Processing ==> job.heartbeat.Some? && job.heartbeat.value >= s.now - timeout
  {
    assert JobOk(s.jobs[id]);
  }

  /** After a sweep at `now` no PROCESSING job has a heartbeat older than `now - timeout`. */
  lemma SweepLeavesNoStaleJob(es: seq<Event>, timeout: Time, id: JobId)
    requires id in RunTo(es + [Sweep(timeout)]).jobs
    ensures var job := RunTo(es + [Sweep(timeout)]).jobs[id];
            job.status == Processing ==> job.heartbeat.Some? && job.heartbeat.value >= RunTo(es).now - timeout
  {
    var es' := es + [Sweep(timeout)];
    assert es'[..|es'| - 1] == es;
    RunKeepsInv(es);
    SweptHeartbeats(RunTo(es), timeout, id);
  }

  /** Two PROCESSING jobs that no worker has lost belong to different workers. */
  lemma OneJobPerWorker(es: seq<Event>, i: JobId, k: JobId)
    requires i in RunTo(es).jobs && k in RunTo(es).jobs && i != k
    requires RunTo(es).jobs[i].status == RunTo(es).jobs[k].status == Processing
    requires i !in RunTo(es).lost && k !in RunTo(es).lost
    ensures RunTo(es).jobs[i].worker.Some? && RunTo(es).jobs[k].worker.Some?
    ensures RunTo(es).jobs[i].worker != RunTo(es).jobs[k].worker
  {
    RunKeepsInv(es);
    assert HeldOrLost(RunTo(es), i) && HeldOrLost(RunTo(es), k);
  }

  // ---- Duplicate jobs -------------------------------------------------------------------------

  ghost predicate OneActive(jobs: Jobs) {
    forall i, k ::
      (i in jobs && k in jobs && jobs[i].session == jobs[k].session
       && jobs[i].status in ACTIVE_JOB_STATUSES && jobs[k].status in ACTIVE_JOB_STATUSES) ==> i == k
  }

  /** The check behind this insert has gone stale: the session has an active job again. */
  predicate InsertsDuplicate(s: World, e: Event) {
    Inserts(s, e) && HasActive(s.jobs, s.inserts[e.conn])
  }

  /** An active job after a step was active before it, for the same session, or has just been inserted. */
  lemma ActiveBefore(s: World, e: Event, id: JobId)
    requires Inv(s) && id in Apply(s, e).jobs && Apply(s, e).jobs[id].status in ACTIVE_JOB_STATUSES
    ensures || (id in s.jobs && s.jobs[id].status in ACTIVE_JOB_STATUSES
                && s.jobs[id].session == Apply(s, e).jobs[id].session)
            || (Inserts(s, e) && id == e.id && Apply(s, e).jobs[id].session == s.inserts[e.conn])
  {
    StepAdvancesJobs(s, e);
    assert id in s.jobs ==> JobAdvances(s.jobs[id], Apply(s, e).jobs[id]);
  }

  lemma OneActiveStep(s: World, e: Event)
    requires Inv(s) && OneActive(s.jobs)
    ensures OneActive(Apply(s, e).jobs) <==> !InsertsDuplicate(s, e)
  {
    var jobs, jobs' := s.jobs, Apply(s, e).jobs;
    if InsertsDuplicate(s, e) {
      var k :| k in jobs && jobs[k].session == s.inserts[e.conn] && jobs[k].status in ACTIVE_JOB_STATUSES;
      assert jobs'[k] == jobs[k] && jobs'[e.id].session == jobs[k].session && jobs'[e.id].status == Pending;
    } else {
      forall i, k | i in jobs' && k in jobs' && jobs'[i].session == jobs'[k].session
        && jobs'[i].status in ACTIVE_JOB_STATUSES && jobs'[k].status in ACTIVE_JOB_STATUSES
        ensures i == k
      {
        ActiveBefore(s, e, i);
        ActiveBefore(s, e, k);
      }
    }
  }

  ghost predicate AlwaysOneActive(es: seq<Event>) {
    forall i :: 0 <= i <= |es| ==> OneActive(RunTo(es[..i]).jobs)
  }

  ghost predicate ChecksFresh(es: seq<Event>) {
    forall i :: 0 <= i < |es| ==> !InsertsDuplicate(RunTo(es[..i]), es[i])
  }

  lemma AlwaysSplit(es: seq<Event>)
    requires es != []
    ensures AlwaysOneActive(es) <==> AlwaysOneActive(es[..|es| - 1]) && OneActive(RunTo(es).jobs)
  {
    PrefixesSplit((prefix: seq<Event>) => OneActive(RunTo(prefix).jobs), es);
  }

  lemma FreshSplit(es: seq<Event>)
    requires es != []
    ensures ChecksFresh(es) <==>
            ChecksFresh(es[..|es| - 1]) && !InsertsDuplicate(RunTo(es[..|es| - 1]), es[|es| - 1])
  {
    var init := es[..|es| - 1];
    assert forall i :: 0 <= i < |es| ==> init[..i] == es[..i];
    if ChecksFresh(init) && !InsertsDuplicate(RunTo(init), es[|es| - 1]) {
      forall i | 0 <= i < |es|
        ensures !InsertsDuplicate(RunTo(es[..i]), es[i])
      {
        if i < |init| {
          assert !InsertsDuplicate(RunTo(init[..i]), init[i]);
        }
      }
    }
  }

  /** A session has one active job all through a run exactly when every insert's check still held at the insert. */
  lemma {:induction false} OneActiveIffChecksFresh(es: seq<Event>)
    ensures AlwaysOneActive(es) <==> ChecksFresh(es)
  {
    if es == [] {
      assert es[..0] == [];
    } else {
      var init := es[..|es| - 1];
      OneActiveIffChecksFresh(init);
      AlwaysSplit(es);
      FreshSplit(es);
      if AlwaysOneActive(init) {
        assert init[..|init|] == init && OneActive(RunTo(init[..|init|]).jobs);
        RunKeepsInv(init);
        OneActiveStep(RunTo(init), es[|es| - 1]);
      }
    }
  }

  /** Two enqueuers that both checked before either inserted give one session two active jobs. */
  lemma RacingEnqueuesDuplicate() returns (es: seq<Event>)
    ensures !OneActive(RunTo(es).jobs)
  {
    var e1 := Do([], Check("a", "s"));
    var e2 := Do(e1, Check("b", "s"));
    var e3 := Do(e2, Insert("a", 1));
    es := Do(e3, Insert("b", 2));
    assert RunTo(e1) == INIT.(inserts := map["a" := "s"]);
    assert RunTo(e2) == INIT.(inserts := map["a" := "s", "b" := "s"]);
    assert RunTo(e3).jobs == map[1 := NewJob("s", 0)] && RunTo(e3).inserts == map["b" := "s"] && RunTo(e3).now == 1;
    assert RunTo(es).jobs == map[1 := NewJob("s", 0), 2 := NewJob("s", 1)];
    assert RunTo(es).jobs[1].session == RunTo(es).jobs[2].session;
  }

  lemma Do(es: seq<Event>, e: Event) returns (es': seq<Event>)
    ensures RunTo(es') == Apply(RunTo(es), e) && es < es'
  {
    es' := es + [e];
    assert es'[..|es'| - 1] == es;
  }

  const FINISHED: set<Status> := {Done, Failed, Skipped}

  /** The worker still holding job `id` marks it with a status. */
  predicate Remarks(s: World, e: Event, id: JobId, status: Status) {
    e.Finish? && PcOf(s, e.w) == Holding(id) && e.status == status && status in FINISHED
  }

  /**
   A finished job's status changes in a step exactly if the worker that still holds the job marks it with another
   status: nothing else reopens or rewrites it.
   */
  lemma FinishedStatusChangesIff(es: seq<Event>, e: Event, id: JobId)
    requires id in RunTo(es).jobs && RunTo(es).jobs[id].status in FINISHED
    ensures var (s, now) := (RunTo(es), RunTo(es).jobs[id].status);
            && id in Apply(s, e).jobs
            && (Apply(s, e).jobs[id].status != now <==> exists status :: status != now && Remarks(s, e, id, status))
  {
    RunKeepsInv(es);
    var s, now := RunTo(es), RunTo(es).jobs[id].status;
    if e.Finish? && PcOf(s, e.w).Holding? {
      assert WorkerOk(s.jobs, e.w, s.workers[e.w]);
      if PcOf(s, e.w).job == id && e.status in FINISHED && e.status != now {
        assert Remarks(s, e, id, e.status);
      }
    }
  }

  /** A worker can still be holding a finished job only if a sweep has failed it under that worker. */
  ghost predicate HeldFinished(s: World) {
    forall w :: w in s.workers && s.workers[w].Holding? && s.workers[w].job in s.jobs ==>
                  s.jobs[s.workers[w].job].status !in {Done, Skipped}
  }

  lemma HeldFinishedStep(s: World, e: Event)
    requires Inv(s) && HeldFinished(s)
    ensures HeldFinished(Apply(s, e))
  {
    var s' := Apply(s, e);
    forall w | w in s'.workers && s'.workers[w].Holding? && s'.workers[w].job in s'.jobs
      ensures s'.jobs[s'.workers[w].job].status !in {Done, Skipped}
    {
      HeldJobStep(s, e, w);
    }
  }

  lemma HeldJobStep(s: World, e: Event, w: WorkerId)
    requires Inv(s) && HeldFinished(s) && w in Apply(s, e).workers && Apply(s, e).workers[w].Holding?
    requires Apply(s, e).workers[w].job in Apply(s, e).jobs
    ensures Apply(s, e).jobs[Apply(s, e).workers[w].job].status !in {Done, Skipped}
  {
    if w in s.workers && s.workers[w].Holding? {
      assert WorkerOk(s.jobs, w, s.workers[w]);
    }
    if e.Finish? && PcOf(s, e.w).Holding? {
      assert WorkerOk(s.jobs, e.w, s.workers[e.w]);
    }
  }

  lemma {:induction false} RunKeepsHeldFinished(es: seq<Event>)
    ensures HeldFinished(RunTo(es))
  {
    if es != [] {
      RunKeepsHeldFinished(es[..|es| - 1]);
      RunKeepsInv(es[..|es| - 1]);
      HeldFinishedStep(RunTo(es[..|es| - 1]), es[|es| - 1]);
    }
  }

  /** So the only finished status that is ever rewritten is FAILED. */
  lemma DoneAndSkippedAreFinal(es: seq<Event>, e: Event, id: JobId)
    requires id in RunTo(es).jobs && RunTo(es).jobs[id].status in {Done, Skipped}
    ensures id in Apply(RunTo(es), e).jobs && Apply(RunTo(es), e).jobs[id].status == RunTo(es).jobs[id].status
  {
    FinishedStatusChangesIff(es, e, id);
    RunKeepsHeldFinished(es);
  }

  /** One job, enqueued and selected by worker "w". */
  lemma SelectedRun() returns (es: seq<Event>)
    ensures RunTo(es) == World(1, map[1 := NewJob("s", 0)], map[], map["w" := Selected(1)], {})
  {
    var e0: seq<Event> := [];
    var e1 := Do(e0, Check("a", "s"));
    assert RunTo(e1) == INIT.(inserts := map["a" := "s"]);
    var e2 := Do(e1, Insert("a", 1));
    assert RunTo(e2) == World(1, map[1 := NewJob("s", 0)], map[], map[], {});
    es := Do(e2, Select("w", 1));
  }

  /** The worker claims it, and is then swept. */
  lemma SweptRun() returns (es: seq<Event>)
    ensures 1 in RunTo(es).jobs && RunTo(es).jobs[1].status == Failed && PcOf(RunTo(es), "w") == Holding(1)
  {
    var e0 := SelectedRun();
    var e1 := Do(e0, Claim("w"));
    var claimed := ClaimedJob(NewJob("s", 0), "w", 1);
    assert RunTo(e1).jobs == map[1 := claimed] && RunTo(e1).workers == map["w" := Holding(1)] && RunTo(e1).now == 1;
    var e2 := Do(e1, Tick(1));
    es := Do(e2, Sweep(0));
    assert RunTo(es).jobs[1] == SweptJob(claimed, 2, 2);
  }

  /** A run in which a job that was swept to FAILED becomes DONE. */
  lemma SweptJobCanBecomeDone() returns (es: seq<Event>, later: seq<Event>)
    ensures 1 in RunTo(es).jobs && RunTo(es).jobs[1].status == Failed
    ensures es < later && 1 in RunTo(later).jobs && RunTo(later).jobs[1].status == Done
  {
    es := SweptRun();
    later := Do(es, Finish("w", Done, None));
  }
}
