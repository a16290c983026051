/** The sync_jobs table as a queue: creating, claiming, finishing and requeueing jobs, each
    guarded by the state it starts from. */
module JobStore {
  import opened Wrappers

  datatype JobState = Queued | Running | Succeeded | Failed | Skipped {
    predicate Terminal() { Succeeded? || Failed? || Skipped? }
  }

  datatype Kind = Initial | Manual | Webhook | Scheduled

  /** Job ids are UUIDs; only their order matters here. */
  type JobId = nat

  datatype Job = Job(item: string, kind: Kind, state: JobState, createdAt: nat, startedAt: Option<nat>,
                     finishedAt: Option<nat>, code: Option<string>)

  type Jobs = map<JobId, Job>

  datatype JobError = NotFound | WrongState | Invalid | QueryFailed

  /** The timestamps a job carries tell which states it has been through. */
  predicate Legal(j: Job) {
    match j.state
    case Queued => j.startedAt.None? && j.finishedAt.None? && j.code.None?
    case Running => j.startedAt.Some? && j.finishedAt.None? && j.code.None?
    case _ => j.finishedAt.Some?
  }

  ghost predicate AllLegal(jobs: Jobs) { forall id :: id in jobs ==> Legal(jobs[id]) }

  /** Nothing a terminal job says ever changes, and no job disappears. */
  ghost predicate KeepsTerminal(jobs: Jobs, jobs': Jobs) {
    forall id :: id in jobs ==> id in jobs' && jobs'[id].item == jobs[id].item
                                && (jobs[id].state.Terminal() ==> jobs'[id] == jobs[id])
  }

  function Created(item: string, kind: Kind, now: nat): Job { Job(item, kind, Queued, now, None, None, None) }

  function Claimed(jobs: Jobs, id: JobId, now: nat): Jobs
    requires id in jobs
  {
    jobs[id := jobs[id].(state := Running, startedAt := Some(now))]
  }

  function Finished(jobs: Jobs, id: JobId, state: JobState, code: Option<string>, now: nat): Jobs
    requires id in jobs
  {
    jobs[id := jobs[id].(state := state, finishedAt := Some(now), code := code)]
  }

  function Requeued(jobs: Jobs): Jobs {
    map id | id in jobs :: if jobs[id].state == Running then jobs[id].(state := Queued, startedAt := None) else jobs[id]
  }

  predicate IsQueued(jobs: Jobs, id: JobId) { id in jobs && jobs[id].state == Queued }

  function QueuedOf(jobs: Jobs, item: string): set<JobId> {
    set id | id in jobs && IsQueued(jobs, id) && jobs[id].item == item
  }

  function InState(jobs: Jobs, state: JobState): set<JobId> { set id | id in jobs && jobs[id].state == state }

  /** ORDER BY created_at, job_id */
  predicate Before(jobs: Jobs, a: JobId, b: JobId)
    requires a in jobs && b in jobs
  {
    jobs[a].createdAt < jobs[b].createdAt || (jobs[a].createdAt == jobs[b].createdAt && a <= b)
  }

  /** The head of the queue made of these jobs. */
  ghost predicate IsOldest(jobs: Jobs, ids: set<JobId>, r: Option<JobId>)
    requires ids <= jobs.Keys
  {
    match r
    case None => ids == {}
    case Some(id) => id in ids && forall x :: x in ids ==> Before(jobs, id, x)
  }

  lemma OldestIsUnique(jobs: Jobs, ids: set<JobId>, r: Option<JobId>, s: Option<JobId>)
    requires ids <= jobs.Keys && IsOldest(jobs, ids, r) && IsOldest(jobs, ids, s)
    ensures r == s
  {
    if r.Some? && s.Some? {
      assert Before(jobs, r.value, s.value) && Before(jobs, s.value, r.value);
    }
  }

  /** The same in terms of the columns: none was created earlier, and of those created together
      none has a smaller id. */
  ghost predicate ComesFirst(jobs: Jobs, ids: set<JobId>, r: Option<JobId>)
    requires ids <= jobs.Keys
  {
    && (r.None? <==> ids == {})
    && (r.Some? ==>
          && r.value in ids
          && (forall x :: x in ids ==> jobs[r.value].createdAt <= jobs[x].createdAt)
          && (forall x :: x in ids && jobs[x].createdAt == jobs[r.value].createdAt ==> r.value <= x))
  }

  lemma OldestComesFirst(jobs: Jobs, ids: set<JobId>, r: Option<JobId>)
    requires ids <= jobs.Keys && IsOldest(jobs, ids, r)
    ensures ComesFirst(jobs, ids, r)
  {
    if r.Some? {
      forall x | x in ids
        ensures jobs[r.value].createdAt <= jobs[x].createdAt
        ensures jobs[x].createdAt == jobs[r.value].createdAt ==> r.value <= x
      {
        assert Before(jobs, r.value, x);
      }
    }
  }

  method Oldest(jobs: Jobs, ids: set<JobId>) returns (r: Option<JobId>)
    requires ids <= jobs.Keys
    ensures IsOldest(jobs, ids, r) && ComesFirst(jobs, ids, r)
  {
    r := None;
    var rest := ids;
    ghost var seen: set<JobId> := {};
    while rest != {}
      invariant seen <= jobs.Keys && rest <= jobs.Keys && seen + rest == ids && IsOldest(jobs, seen, r)
      decreases |rest|
    {
      var id :| id in rest;
      seen, rest := seen + {id}, rest - {id};
      if r.None? || Before(jobs, id, r.value) { r := Some(id); }
    }
    OldestComesFirst(jobs, ids, r);
  }

  class JobTable {
    var jobs: Jobs

    constructor ()
      ensures jobs == map[]
    {
      jobs := map[];
    }

    /** Inserts a queued job for an existing item under a fresh id. */
    method CreateJob(items: set<string>, item: string, kind: Kind, id: JobId, now: nat)
      returns (r: Result<JobId, JobError>)
      modifies this
      ensures r == if item == "" then Err(Invalid) else if id in old(jobs) then Err(QueryFailed)
                   else if item !in items then Err(NotFound) else Ok(id)
      ensures jobs == if r.Ok? then old(jobs)[id := Created(item, kind, now)] else old(jobs)
      ensures r.Ok? ==> jobs == old(jobs)[id := Job(item, kind, Queued, now, None, None, None)]
      ensures KeepsTerminal(old(jobs), jobs) && (AllLegal(old(jobs)) ==> AllLegal(jobs))
    {
      if item == "" { return Err(Invalid); }
      if id in jobs { return Err(QueryFailed); }
      if item !in items { return Err(NotFound); }
      jobs := jobs[id := Created(item, kind, now)];
      return Ok(id);
    }

    /** Moves the oldest queued job that no concurrent claim has locked to running. */
    method ClaimJob(skipLocked: set<JobId>, now: nat) returns (r: Option<JobId>)
      modifies this
      ensures IsOldest(old(jobs), InState(old(jobs), Queued) - skipLocked, r)
      ensures ComesFirst(old(jobs), InState(old(jobs), Queued) - skipLocked, r)
      ensures jobs == if r.Some? then Claimed(old(jobs), r.value, now) else old(jobs)
      ensures r.Some? ==>
                jobs == old(jobs)[r.value := old(jobs)[r.value].(state := Running, startedAt := Some(now))]
      ensures KeepsTerminal(old(jobs), jobs) && (AllLegal(old(jobs)) ==> AllLegal(jobs))
    {
      r := Oldest(jobs, InState(jobs, Queued) - skipLocked);
      if r.Some? { jobs := Claimed(jobs, r.value, now); }
    }

    method StartJob(id: JobId, now: nat) returns (r: Result<(), JobError>)
      modifies this
      ensures r == if id !in old(jobs) then Err(NotFound)
                   else if old(jobs)[id].state != Queued then Err(WrongState) else Ok(())
      ensures jobs == if r.Ok? then Claimed(old(jobs), id, now) else old(jobs)
      ensures r.Ok? ==> jobs == old(jobs)[id := old(jobs)[id].(state := Running, startedAt := Some(now))]
      ensures KeepsTerminal(old(jobs), jobs) && (AllLegal(old(jobs)) ==> AllLegal(jobs))
    {
      if id !in jobs { return Err(NotFound); }
      if jobs[id].state != Queued { return Err(WrongState); }
      jobs := Claimed(jobs, id, now);
      return Ok(());
    }

    /** Writes a terminal state once: a finished job refuses a second one. */
    method FinishJob(id: JobId, state: JobState, code: Option<string>, now: nat) returns (r: Result<(), JobError>)
      modifies this
      ensures r == if !state.Terminal() then Err(Invalid) else if id !in old(jobs) then Err(NotFound)
                   else if old(jobs)[id].state.Terminal() then Err(WrongState) else Ok(())
      ensures jobs == if r.Ok? then Finished(old(jobs), id, state, code, now) else old(jobs)
      ensures r.Ok? ==>
                jobs == old(jobs)[id := old(jobs)[id].(state := state, finishedAt := Some(now), code := code)]
      ensures KeepsTerminal(old(jobs), jobs) && (AllLegal(old(jobs)) ==> AllLegal(jobs))
    {
      if !state.Terminal() { return Err(Invalid); }
      if id !in jobs { return Err(NotFound); }
      if !jobs[id].state.Queued? && !jobs[id].state.Running? { return Err(WrongState); }
      jobs := Finished(jobs, id, state, code, now);
      return Ok(());
    }

    /** The item's oldest queued job, if it has one. */
    method QueuedJob(item: string) returns (r: Option<JobId>)
      ensures IsOldest(jobs, QueuedOf(jobs, item), r) && ComesFirst(jobs, QueuedOf(jobs, item), r)
    {
      r := Oldest(jobs, QueuedOf(jobs, item));
    }

    /** At process start: every running job was interrupted and goes back to the queue. */
    method RequeueRunningJobs() returns (n: nat)
      modifies this
      ensures n == |InState(old(jobs), Running)|
      ensures jobs == Requeued(old(jobs)) && InState(jobs, Running) == {} && jobs.Keys == old(jobs).Keys
      ensures forall id :: id in jobs ==>
                jobs[id] == if old(jobs)[id].state == Running
                            then old(jobs)[id].(state := Queued, startedAt := None) else old(jobs)[id]
      ensures InState(jobs, Queued) == InState(old(jobs), Queued) + InState(old(jobs), Running)
      ensures KeepsTerminal(old(jobs), jobs) && (AllLegal(old(jobs)) ==> AllLegal(jobs))
    {
      n := |InState(jobs, Running)|;
      jobs := Requeued(jobs);
    }
  }
}
