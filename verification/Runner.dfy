/** The job runner: enqueueing with coalescing, processing a claimed job to its terminal
    state, and the bounded follow-ups of an item Plaid is not ready for. */
module Runner {
  import opened Wrappers
  import opened Pagination
  import opened Store
  import opened Engine
  import opened JobStore

  datatype EnqueueError = UnknownItem | RemovedItem | NotSyncable | StoreFailed

  /** What was wrong with the database while a call ran. */
  datatype Faults = Faults(lookup: bool, queued: bool, create: bool, finish: bool)

  /** Error codes of skipped and failed jobs. */
  const CODE_DEBOUNCED := "debounced"
  const CODE_LOCKED := "locked"
  const CODE_ITEM_REMOVED := "item_removed"
  const CODE_NEEDS_REAUTH := "needs_reauth"
  const CODE_ITEM_LOOKUP := "item_lookup"

  function OutcomeCode(o: Outcome): string {
    match o
    case Success => "success"
    case RetryableError => "retryable_error"
    case NeedsReauth => "needs_reauth"
    case Fatal => "fatal"
    case Locked => "locked"
    case Canceled => "canceled"
    case Failed => "error"
  }

  /** A terminal state and its code. */
  datatype End = End(state: JobState, code: Option<string>)

  /** What enqueueing did to the table: nothing on an error, nothing but finding the item's
      oldest queued job if it has one, one new queued job otherwise. */
  ghost predicate Enqueues(before: Jobs, item: string, kind: Kind, id: JobId, now: nat,
                           r: Result<JobId, EnqueueError>, after: Jobs) {
    match r
    case Err(_) => after == before
    case Ok(job) =>
      if QueuedOf(before, item) != {} then after == before && IsOldest(before, QueuedOf(before, item), Some(job))
      else job == id && id !in before && after == before[id := Created(item, kind, now)]
  }

  /** A burst of triggers collapses: once one has succeeded, the item has a queued job, and
      the next trigger gets exactly that job back and changes nothing, while the item had at
      most one queued before. */
  lemma BurstCollapses(t0: Jobs, item: string, k1: Kind, id1: JobId, now1: nat, r1: Result<JobId, EnqueueError>,
    t1: Jobs,
                       k2: Kind, id2: JobId, now2: nat, r2: Result<JobId, EnqueueError>, t2: Jobs)
    requires Enqueues(t0, item, k1, id1, now1, r1, t1) && r1.Ok?
    requires Enqueues(t1, item, k2, id2, now2, r2, t2) && r2.Ok?
    ensures t2 == t1 && r2 == r1
    ensures |QueuedOf(t0, item)| <= 1 ==> QueuedOf(t1, item) == {r1.value}
  {
    if QueuedOf(t0, item) == {} {
      assert QueuedOf(t1, item) == {id1};
      assert IsOldest(t1, QueuedOf(t1, item), Some(r2.value));
    } else {
      OldestIsUnique(t0, QueuedOf(t0, item), Some(r1.value), Some(r2.value));
      if |QueuedOf(t0, item)| <= 1 {
        assert |QueuedOf(t0, item) - {r1.value}| == 0;
        assert QueuedOf(t0, item) == {r1.value};
      }
    }
  }

  /** How a job ends without a sync, if it does. */
  function EndBefore(lookup: Option<Item>, kind: Kind, minInterval: nat, now: int): Option<End> {
    if lookup.None? then Some(End(JobState.Failed, Some(CODE_ITEM_LOOKUP)))
    else if lookup.value.status == Removed then Some(End(Skipped, Some(CODE_ITEM_REMOVED)))
    else if !lookup.value.status.Syncable() then Some(End(Skipped, Some(CODE_NEEDS_REAUTH)))
    else if kind == Manual && minInterval > 0 && lookup.value.lastSync.Some?
            && now - lookup.value.lastSync.value < minInterval
    then Some(End(Skipped, Some(CODE_DEBOUNCED)))
    else None
  }

  /** How a kept end reads, outcome by outcome. */
  ghost predicate EndedAs(o: Outcome, before: Job, after: Job, now: nat) {
    match o
    case Success => after == before.(state := Succeeded, finishedAt := Some(now), code := None)
    case Locked => after == before.(state := Skipped, finishedAt := Some(now), code := Some("locked"))
    case Canceled => after == before
    case RetryableError =>
      after == before.(state := JobState.Failed, finishedAt := Some(now), code := Some("retryable_error"))
    case NeedsReauth =>
      after == before.(state := JobState.Failed, finishedAt := Some(now), code := Some("needs_reauth"))
    case Fatal => after == before.(state := JobState.Failed, finishedAt := Some(now), code := Some("fatal"))
    case Failed => after == before.(state := JobState.Failed, finishedAt := Some(now), code := Some("error"))
  }

  /** How a job ends after its sync; a canceled one stays running. */
  function EndAfter(o: Outcome): Option<End> {
    match o
    case Success => Some(End(Succeeded, None))
    case Locked => Some(End(Skipped, Some(CODE_LOCKED)))
    case Canceled => None
    case _ => Some(End(JobState.Failed, Some(OutcomeCode(o))))
  }

  function JobsAfter(jobs: Jobs, id: JobId, end: Option<End>, lost: bool, now: nat): Jobs
    requires id in jobs
  {
    if end.None? || lost then jobs else Finished(jobs, id, end.value.state, end.value.code, now)
  }

  /** What a processed job tells about its item's readiness. */
  datatype Readiness = NotReady | Ready | Neither

  function ReadinessOf(synced: Option<SyncResult>): Readiness {
    if synced.None? || synced.value.outcome != Success then Neither
    else if synced.value.notReady then Readiness.NotReady else Ready
  }

  type Counters = map<string, nat>

  function CountOf(counters: Counters, item: string): nat { if item in counters then counters[item] else 0 }

  /** What a processed job does to the follow-up counters: a sync that found the item not
      ready counts and schedules one more, after the delay of its turn, while there is one; a
      real success forgets the item; nothing else matters, and no other item is touched. */
  ghost predicate Follows(before: Counters, item: string, r: Readiness, delays: seq<nat>, after: Counters,
                          followUp: Option<nat>) {
    match r
    case NotReady =>
      var count := CountOf(before, item);
      if count < |delays| then followUp == Some(delays[count]) && after == before[item := count + 1]
      else followUp.None? && after == before
    case Ready => followUp.None? && after == before - {item}
    case Neither => followUp.None? && after == before
  }

  /** What a processed job tells: nothing about other jobs or finished ones; it is still running
      exactly if its sync was canceled or its last write lost, and it succeeded exactly if its
      sync did and the write was not lost. */
  ghost predicate TellsTheTruth(before: Jobs, id: JobId, synced: Option<SyncResult>, lost: bool, after: Jobs) {
    && KeepsTerminal(before, after) && id in after
    && (forall x :: x in before && x != id ==> x in after && after[x] == before[x])
    && (after[id].state == Running <==> lost || (synced.Some? && synced.value.outcome == Canceled))
    && (after[id].state == Succeeded <==> !lost && synced.Some? && synced.value.outcome == Success)
  }

  lemma EndTellsTheTruth(jobs: Jobs, id: JobId, end: Option<End>, synced: Option<SyncResult>, lost: bool, now: nat)
    requires id in jobs && jobs[id].state == Running
    requires if synced.Some? then end == EndAfter(synced.value.outcome)
             else end.Some? && end.value.state in {JobState.Failed, Skipped}
    ensures TellsTheTruth(jobs, id, synced, lost, JobsAfter(jobs, id, end, lost, now))
  {
  }

  class Runner {
    const store: Store
    const engine: Engine
    const table: JobTable
    const minInterval: nat
    const delays: seq<nat>
    var notReady: Counters
    var wake: bool

    constructor (s: Store, e: Engine, t: JobTable, interval: nat, delays: seq<nat>)
      requires e.store == s
      ensures store == s && engine == e && table == t && minInterval == interval && this.delays == delays
      ensures notReady == map[] && !wake
    {
      store, engine, table, minInterval, this.delays := s, e, t, interval, delays;
      notReady, wake := map[], false;
    }

    method Enqueue(item: string, kind: Kind, id: JobId, now: nat, f: Faults) returns (r: Result<JobId, EnqueueError>)
      modifies this`wake, table
      ensures Enqueues(old(table.jobs), item, kind, id, now, r, table.jobs)
      ensures r == Err(UnknownItem) <==> (!f.lookup && item !in store.db.items)
      ensures r == Err(RemovedItem) <==> (!f.lookup && item in store.db.items && store.db.items[item].status == Removed)
      ensures r == Err(NotSyncable) <==>
        (!f.lookup && item in store.db.items
         && store.db.items[item].status in {LoginRequired, PendingExpiration, PermissionRevoked})
      ensures wake <==> old(wake) || table.jobs != old(table.jobs)
      ensures KeepsTerminal(old(table.jobs), table.jobs) && (AllLegal(old(table.jobs)) ==> AllLegal(table.jobs))
    {
      if f.lookup { return Err(StoreFailed); }
      if item !in store.db.items { return Err(UnknownItem); }
      match store.db.items[item].status {
        case Removed => return Err(RemovedItem);
        case LoginRequired | PendingExpiration | PermissionRevoked => return Err(NotSyncable);
        case _ =>
      }
      if f.queued { return Err(StoreFailed); }
      var queued := table.QueuedJob(item);
      if queued.Some? { return Ok(queued.value); }
      if f.create { return Err(StoreFailed); }
      var created := table.CreateJob(store.db.items.Keys, item, kind, id, now);
      if created.Err? { return Err(StoreFailed); }
      assert id in table.jobs && id !in old(table.jobs);
      wake := true;
      return Ok(created.value);
    }

    /** Writes the terminal state; a failed write is only logged. */
    method Finish(id: JobId, end: End, now: nat, lost: bool)
      requires id in table.jobs && table.jobs[id].state == Running && end.state.Terminal()
      modifies table
      ensures table.jobs == JobsAfter(old(table.jobs), id, Some(end), lost, now)
    {
      if lost { return; }
      var _ := table.FinishJob(id, end.state, end.code, now);
    }

    /** Queues one more sync of an item Plaid was not ready for, after the next delay, until
        the delays are used up. */
    method RetryNotReady(item: string) returns (delay: Option<nat>)
      modifies this`notReady
      ensures Follows(old(notReady), item, Readiness.NotReady, delays, notReady, delay)
    {
      var attempt := if item in notReady then notReady[item] else 0;
      if attempt >= |delays| { return None; }
      notReady := notReady[item := attempt + 1];
      return Some(delays[attempt]);
    }

    /** Ends a job that is not to be synced: its item is gone, removed or waiting for a human,
        or the sync is manual and too soon after the last. A lookup that shutdown canceled
        counts as a failed one. */
    method EndUnsynced(id: JobId, now: nat, f: Faults) returns (ended: bool)
      requires id in table.jobs && table.jobs[id].state == Running
      modifies table
      ensures var job := old(table.jobs)[id];
              var end := EndBefore(Looked(store.db, job.item, f), job.kind, minInterval, now);
              ended == end.Some? && table.jobs == JobsAfter(old(table.jobs), id, end, f.finish, now)
    {
      var job := table.jobs[id];
      if f.lookup || job.item !in store.db.items {
        Finish(id, End(JobState.Failed, Some(CODE_ITEM_LOOKUP)), now, f.finish);
        return true;
      }
      var item := store.db.items[job.item];
      if item.status == Removed {
        Finish(id, End(Skipped, Some(CODE_ITEM_REMOVED)), now, f.finish);
        return true;
      }
      if !item.status.Syncable() {
        Finish(id, End(Skipped, Some(CODE_NEEDS_REAUTH)), now, f.finish);
        return true;
      }
      if job.kind == Manual && minInterval > 0 && item.lastSync.Some?
        && (now as int) - item.lastSync.value < minInterval {
        Finish(id, End(Skipped, Some(CODE_DEBOUNCED)), now, f.finish);
        return true;
      }
      return false;
    }

    /** Runs a claimed job to its end. It ends succeeded exactly when a sync of its item
        succeeded; rows change only then; a job ended before its sync leaves the database
        alone; only a canceled sync (or a lost write) leaves the job running. A follow-up is
        scheduled, after the delay returned, as the item's readiness asks for. Of what shutdown
        may cancel, only the sync leaves the job to the next start: a canceled lookup fails it. */
    method Process(id: JobId, w: World, now: nat, f: Faults) returns (synced: Option<SyncResult>, followUp: Option<nat>)
      requires id in table.jobs && table.jobs[id].state == Running
      requires engine.store == store && ValidWorld(w, engine.cfg)
      modifies this`notReady, table, store
      ensures var job := old(table.jobs)[id];
              var early := EndBefore(Looked(old(store.db), job.item, f), job.kind, minInterval, now);
              && (synced.None? <==> early.Some?)
              && var end := if synced.Some? then EndAfter(synced.value.outcome) else early;
                 table.jobs == JobsAfter(old(table.jobs), id, end, f.finish, now)
      ensures TellsTheTruth(old(table.jobs), id, synced, f.finish, table.jobs)
      ensures synced.Some? && !f.finish ==>
                EndedAs(synced.value.outcome, old(table.jobs)[id], table.jobs[id], now)
      ensures store.db.txns != old(store.db).txns || store.db.accounts != old(store.db).accounts ==>
                synced.Some? && synced.value.outcome == Success && !synced.value.notReady
      ensures Follows(old(notReady), old(table.jobs)[id].item, ReadinessOf(synced), delays, notReady, followUp)
      ensures synced.None? ==> store.db == old(store.db)
      ensures synced.Some? ==>
                SyncEffect(old(store.db), old(table.jobs)[id].item, w, engine.cfg, synced.value, store.db)
    {
      var job := table.jobs[id];
      var ended := EndUnsynced(id, now, f);
      ghost var jobs := old(table.jobs);
      ghost var early := EndBefore(Looked(old(store.db), job.item, f), job.kind, minInterval, now);
      if ended {
        EndTellsTheTruth(jobs, id, early, None, f.finish, now);
        return None, None;
      }
      var res := engine.SyncItem(job.item, w);
      synced := Some(res);
      followUp := EndSynced(id, res, now, f);
      EndTellsTheTruth(jobs, id, EndAfter(res.outcome), synced, f.finish, now);
    }

    /** Ends a job after its sync and sees to its item's follow-up. */
    method EndSynced(id: JobId, res: SyncResult, now: nat, f: Faults) returns (followUp: Option<nat>)
      requires id in table.jobs && table.jobs[id].state == Running
      modifies this`notReady, table
      ensures table.jobs == JobsAfter(old(table.jobs), id, EndAfter(res.outcome), f.finish, now)
      ensures Follows(old(notReady), old(table.jobs)[id].item, ReadinessOf(Some(res)), delays, notReady, followUp)
    {
      var job := table.jobs[id];
      followUp := None;
      var end := EndAfter(res.outcome);
      if end.Some? { Finish(id, end.value, now, f.finish); }
      if res.outcome == Success {
        if res.notReady {
          followUp := RetryNotReady(job.item);
        } else {
          notReady := notReady - {job.item};
        }
      }
    }
  }

  const ACTIVE_ITEM := Item(Active, None, Some("blob"), Some(1), None, None, None, None, None)

  /** The only job there is, of this item, claimed and processed. */
  method ProcessOne(item: Item, kind: Kind, interval: nat, w: World, cfg: Config, now: nat, f: Faults)
    returns (job: Job, synced: Option<SyncResult>)
    requires ValidWorld(w, cfg) && !f.finish
    ensures var early := EndBefore(if f.lookup then None else Some(item), kind, interval, now);
            && (synced.None? <==> early.Some?)
            && (early.Some? ==> job.state == early.value.state && job.code == early.value.code)
  {
    var store := new Store(Database(map["item" := item], map[], map[], []));
    var engine := new Engine(store, cfg);
    var table := new JobTable();
    var runner := new Runner(store, engine, table, interval, []);
    var created := table.CreateJob({"item"}, "item", kind, 0, 1);
    var claimed := table.ClaimJob({}, 2);
    assert InState(map[0 := Created("item", kind, 1)], Queued) - {} == {0};
    assert claimed == Some(0);
    var followUp;
    synced, followUp := runner.Process(0, w, now, f);
    job := table.jobs[0];
  }

  /** A job of an item that last synced at `last`. It is skipped exactly if it was asked for by hand
      and the interval since has not passed; otherwise its item is synced. */
  method ManualIsDebounced(w: World, cfg: Config, kind: Kind, last: nat, interval: nat, now: nat)
    returns (job: Job, synced: Option<SyncResult>)
    requires ValidWorld(w, cfg)
    ensures synced.None? <==> kind == Manual && interval > 0 && now < last + interval
    ensures synced.None? ==> job.state == Skipped && job.code == Some(CODE_DEBOUNCED)
  {
    job, synced := ProcessOne(ACTIVE_ITEM.(lastSync := Some(last)), kind, interval, w, cfg, now,
      Faults(false, false, false, false));
  }

  /** A job whose item lookup fails, as one that shutdown cancels does, is written failed and is
      not left to the next start. */
  method FailedLookupEndsJob(w: World, cfg: Config, f: Faults) returns (job: Job, synced: Option<SyncResult>)
    requires ValidWorld(w, cfg) && f.lookup && !f.finish
    ensures synced.None? && job.state == JobState.Failed && job.code == Some(CODE_ITEM_LOOKUP)
  {
    job, synced := ProcessOne(ACTIVE_ITEM, Manual, 0, w, cfg, 3, f);
  }

  function Looked(db: Database, item: string, f: Faults): Option<Item> {
    if f.lookup || item !in db.items then None else Some(db.items[item])
  }

  // ---------------------------------------------------------------- follow-ups

  /** A processed job: its item, what it told of it, and the follow-up it scheduled. */
  datatype Processed = Processed(item: string, r: Readiness, followUp: Option<nat>)

  /** Any jobs of any items, one after the other, from a runner's start on. */
  ghost predicate Works(delays: seq<nat>, jobs: seq<Processed>, counters: seq<Counters>) {
    && |counters| == |jobs| + 1 && counters[0] == map[]
    && forall i :: 0 <= i < |jobs| ==>
      Follows(counters[i], jobs[i].item, jobs[i].r, delays, counters[i + 1], jobs[i].followUp)
  }

  /** How many of the first k jobs are of the item and told this of it. */
  function Times(jobs: seq<Processed>, k: nat, item: string, r: Readiness): int
    requires k <= |jobs|
  {
    if k == 0 then 0 else Times(jobs, k - 1, item, r) + if jobs[k - 1].item == item && jobs[k - 1].r == r then 1 else 0
  }

  /** How many of them scheduled a follow-up of the item. */
  function FollowUps(jobs: seq<Processed>, k: nat, item: string): int
    requires k <= |jobs|
  {
    if k == 0 then 0
    else FollowUps(jobs, k - 1, item) + if jobs[k - 1].item == item && jobs[k - 1].followUp.Some? then 1 else 0
  }

  /** An item that never gets ready is followed up at most once per delay; every real success
      grants one more round. Nothing is scheduled without a not-ready answer, and the first
      answers each schedule one until the delays are used up. */
  lemma {:induction false} FollowUpsAreBounded(delays: seq<nat>, jobs: seq<Processed>, counters: seq<Counters>,
                                               k: nat, item: string)
    requires Works(delays, jobs, counters) && k <= |jobs|
    ensures var count := CountOf(counters[k], item);
            && count <= |delays| && count <= FollowUps(jobs, k, item) <= Times(jobs, k, item, Readiness.NotReady)
            && FollowUps(jobs, k, item) - count <= |delays| * Times(jobs, k, item, Ready)
            && (Times(jobs, k, item, Ready) == 0 ==>
                  var asked := Times(jobs, k, item, Readiness.NotReady);
                  FollowUps(jobs, k, item) == count == if asked < |delays| then asked else |delays|)
    ensures Times(jobs, k, item, Ready) >= 0
  {
    if k > 0 {
      FollowUpsAreBounded(delays, jobs, counters, k - 1, item);
      assert Follows(counters[k - 1], jobs[k - 1].item, jobs[k - 1].r, delays, counters[k], jobs[k - 1].followUp);
      var n := Times(jobs, k - 1, item, Ready);
      assert |delays| * (n + 1) == |delays| * n + |delays|;
    }
  }
}
