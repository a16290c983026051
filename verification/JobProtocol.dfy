/** The job queue under concurrency: enqueuers serialised by a mutex whose check and create
    are two steps, workers claiming with SKIP LOCKED, lost terminal writes, crashes and
    restarts. */
module JobProtocol {
  import opened Wrappers
  import opened JobStore

  /** A stopped worker had a job when its process died. */
  datatype Worker = Idle | Busy(job: JobId) | Stopped(job: JobId)

  /** `checking` is the item of an Enqueue between its check and its create; `tainted` holds
      the unfinished jobs whose terminal write was once lost; `up` says that this process has
      requeued and started its workers. */
  datatype State = State(jobs: Jobs, workers: seq<Worker>, checking: Option<string>, tainted: set<JobId>, up: bool)

  datatype Action =
    | Check(item: string)
    | Create(id: JobId, kind: Kind, now: nat)
    | GiveUp
    | Claim(w: nat, id: JobId, locked: set<JobId>, now: nat)
    | Finish(w: nat, end: JobState, code: Option<string>, now: nat)
    | FinishLost(w: nat)
    | Crash
    | Restart

  ghost predicate Next(s: State, a: Action, s': State) {
    match a
    case Check(item) =>
      s.checking.None? && s' == if QueuedOf(s.jobs, item) != {} then s else s.(checking := Some(item))
    case Create(id, kind, now) =>
      && s.checking.Some? && id !in s.jobs
      && s' == s.(jobs := s.jobs[id := Created(s.checking.value, kind, now)], checking := None)
    case GiveUp => s' == s.(checking := None)
    case Claim(w, id, locked, now) =>
      && s.up && w < |s.workers| && s.workers[w].Idle?
      && IsOldest(s.jobs, InState(s.jobs, Queued) - locked, Some(id))
      && s' == s.(jobs := Claimed(s.jobs, id, now), workers := s.workers[w := Busy(id)])
    case Finish(w, end, code, now) =>
      && s.up && w < |s.workers| && s.workers[w].Busy? && end.Terminal() && s.workers[w].job in s.jobs
      && var id := s.workers[w].job;
         s' == s.(jobs := if s.jobs[id].state.Terminal() then s.jobs else Finished(s.jobs, id, end, code, now),
                  workers := s.workers[w := Idle], tainted := s.tainted - {id})
    case FinishLost(w) =>
      && s.up && w < |s.workers| && s.workers[w].Busy?
      && s' == s.(workers := s.workers[w := Idle], tainted := s.tainted + {s.workers[w].job})
    case Crash =>
      s' == s.(workers := seq(|s.workers|, w requires 0 <= w < |s.workers| =>
                              if s.workers[w].Busy? then Stopped(s.workers[w].job) else s.workers[w]),
               checking := None, up := false)
    case Restart =>
      && !s.up
      && s' == s.(jobs := Requeued(s.jobs), workers := seq(|s.workers|, w => Idle), up := true)
  }

  // ---------------------------------------------------------------- what is kept

  function Active(jobs: Jobs, item: string): set<JobId> {
    set id | id in jobs && !jobs[id].state.Terminal() && jobs[id].item == item
  }

  function TaintedOf(s: State, item: string): set<JobId> {
    set id | id in s.tainted && id in s.jobs && s.jobs[id].item == item
  }

  predicate Holds(s: State, w: nat, id: JobId) { w < |s.workers| && !s.workers[w].Idle? && s.workers[w].job == id }

  /** A held job is running, and held once. */
  ghost predicate HeldOnce(s: State) {
    && (forall w :: 0 <= w < |s.workers| && !s.workers[w].Idle? ==>
          s.workers[w].job in s.jobs && s.jobs[s.workers[w].job].state == Running)
    && (forall v, w :: 0 <= v < w < |s.workers| && !s.workers[v].Idle? && !s.workers[w].Idle? ==>
          s.workers[v].job != s.workers[w].job)
    && (forall w :: 0 <= w < |s.workers| && s.up ==> !s.workers[w].Stopped?)
  }

  /** A running job that nobody holds lost its terminal write. */
  ghost predicate RunningAreAccounted(s: State) {
    && (forall id :: id in s.jobs && s.jobs[id].state == Running ==> id in s.tainted || exists w :: Holds(s, w, id))
    && (forall id :: id in s.tainted ==> id in s.jobs && !s.jobs[id].state.Terminal())
  }

  /** An item's unfinished jobs: one per worker, one queued, and those whose write was lost;
      one fewer while an enqueue is about to create. */
  ghost predicate Bounded(s: State) {
    forall item ::
      |Active(s.jobs, item)| <= |s.workers| + |TaintedOf(s, item)| + if s.checking == Some(item) then 0 else 1
  }

  ghost predicate Inv(s: State) {
    HeldOnce(s) && RunningAreAccounted(s) && Bounded(s) && AllLegal(s.jobs)
  }

  function HeldIn(workers: seq<Worker>): set<JobId> {
    if workers == [] then {}
    else HeldIn(workers[..|workers| - 1]) + if workers[|workers| - 1].Idle? then {} else {workers[|workers| - 1].job}
  }

  lemma {:induction false} FewAreHeld(workers: seq<Worker>)
    ensures |HeldIn(workers)| <= |workers|
    ensures forall w :: 0 <= w < |workers| && !workers[w].Idle? ==> workers[w].job in HeldIn(workers)
  {
    if workers != [] {
      var init := workers[..|workers| - 1];
      FewAreHeld(init);
      assert forall w :: 0 <= w < |init| ==> init[w] == workers[w];
    }
  }

  /** Without a queued job an item has at most one unfinished job per worker and lost write. */
  lemma NoneQueued(s: State, item: string)
    requires RunningAreAccounted(s) && QueuedOf(s.jobs, item) == {}
    ensures |Active(s.jobs, item)| <= |s.workers| + |TaintedOf(s, item)|
  {
    FewAreHeld(s.workers);
    forall id | id in Active(s.jobs, item) ensures id in HeldIn(s.workers) + TaintedOf(s, item) {
      assert id !in QueuedOf(s.jobs, item);
      assert s.jobs[id].state == Running;
    }
    FewerThan(Active(s.jobs, item), HeldIn(s.workers) + TaintedOf(s, item));
  }

  lemma CheckKeepsInv(s: State, a: Action, s': State)
    requires Inv(s) && Next(s, a, s') && (a.Check? || a.GiveUp?)
    ensures Inv(s')
  {
    if a.Check? && s' != s {
      NoneQueued(s, a.item);
      Unmoved(s, s');
    } else {
      Unmoved(s, s');
    }
  }

  lemma Unmoved(s: State, s': State)
    requires Inv(s) && s' == s.(checking := s'.checking)
    ensures HeldOnce(s') && RunningAreAccounted(s') && AllLegal(s'.jobs)
    ensures forall item :: TaintedOf(s', item) == TaintedOf(s, item)
  {
    forall id | id in s'.jobs && s'.jobs[id].state == Running ensures id in s'.tainted || exists w :: Holds(s', w, id) {
      if id !in s.tainted {
        var w :| Holds(s, w, id);
        assert Holds(s', w, id);
      }
    }
  }

  lemma CreatedIsActive(s: State, id: JobId, kind: Kind, now: nat, s': State, item: string)
    requires s.checking.Some? && id !in s.jobs
    requires s' == s.(jobs := s.jobs[id := Created(s.checking.value, kind, now)], checking := None)
    ensures Active(s'.jobs, item) == Active(s.jobs, item) + if s.checking == Some(item) then {id} else {}
    ensures RunningAreAccounted(s) ==> TaintedOf(s', item) == TaintedOf(s, item)
  {
  }

  lemma CreatedIsAccounted(s: State, id: JobId, kind: Kind, now: nat, s': State)
    requires RunningAreAccounted(s) && id !in s.jobs && s.checking.Some?
    requires s' == s.(jobs := s.jobs[id := Created(s.checking.value, kind, now)], checking := None)
    ensures RunningAreAccounted(s')
  {
    forall x | x in s'.jobs && s'.jobs[x].state == Running ensures x in s'.tainted || exists w :: Holds(s', w, x) {
      if x !in s.tainted {
        var w :| Holds(s, w, x);
        assert Holds(s', w, x);
      }
    }
  }

  lemma CreateKeepsInv(s: State, a: Action, s': State)
    requires Inv(s) && Next(s, a, s') && a.Create?
    ensures Inv(s')
  {
    CreatedIsAccounted(s, a.id, a.kind, a.now, s');
    forall item ensures |Active(s'.jobs, item)| <= |s'.workers| + |TaintedOf(s', item)| + 1 {
      CreatedIsActive(s, a.id, a.kind, a.now, s', item);
      assert |Active(s.jobs, item)| <= |s.workers| + |TaintedOf(s, item)| + if s.checking == Some(item) then 0 else 1;
    }
  }

  lemma ClaimedIsAccounted(s: State, a: Action, s': State)
    requires Inv(s) && Next(s, a, s') && a.Claim?
    ensures RunningAreAccounted(s')
  {
    forall id | id in s'.jobs && s'.jobs[id].state == Running ensures id in s'.tainted || exists w :: Holds(s', w, id) {
      if id == a.id {
        assert Holds(s', a.w, id);
      } else if id !in s.tainted {
        var w :| Holds(s, w, id);
        assert Holds(s', w, id);
      }
    }
  }

  lemma ClaimKeepsInv(s: State, a: Action, s': State)
    requires Inv(s) && Next(s, a, s') && a.Claim?
    ensures Inv(s')
  {
    ClaimedIsAccounted(s, a, s');
    forall item
      ensures TaintedOf(s', item) == TaintedOf(s, item) && Active(s'.jobs, item) == Active(s.jobs, item)
    {
    }
  }

  lemma FinishedIsNotActive(jobs: Jobs, id: JobId, end: JobState, code: Option<string>, now: nat, item: string)
    requires id in jobs && !jobs[id].state.Terminal() && end.Terminal()
    ensures Active(Finished(jobs, id, end, code, now), item) == Active(jobs, item) - {id}
    ensures jobs[id].item == item <==> id in Active(jobs, item)
  {
  }

  lemma FinishedIsNotTainted(s: State, a: Action, s': State, item: string)
    requires Inv(s) && Next(s, a, s') && a.Finish?
    ensures TaintedOf(s', item) == TaintedOf(s, item) - {s.workers[a.w].job}
    ensures s.workers[a.w].job in TaintedOf(s, item) ==> s.jobs[s.workers[a.w].job].item == item
  {
  }

  lemma FinishedIsAccounted(s: State, a: Action, s': State)
    requires Inv(s) && Next(s, a, s') && a.Finish?
    ensures RunningAreAccounted(s')
  {
    forall id | id in s'.jobs && s'.jobs[id].state == Running ensures id in s'.tainted || exists w :: Holds(s', w, id) {
      if id !in s.tainted {
        var w :| Holds(s, w, id);
        assert Holds(s', w, id);
      }
    }
  }

  lemma FinishKeepsInv(s: State, a: Action, s': State)
    requires Inv(s) && Next(s, a, s') && a.Finish?
    ensures Inv(s')
  {
    FinishedIsAccounted(s, a, s');
    forall item
      ensures |Active(s'.jobs, item)|
           <= |s'.workers| + |TaintedOf(s', item)| + if s'.checking == Some(item) then 0 else 1
    {
      FinishedIsNotActive(s.jobs, s.workers[a.w].job, a.end, a.code, a.now, item);
      FinishedIsNotTainted(s, a, s', item);
      assert |Active(s.jobs, item)| <= |s.workers| + |TaintedOf(s, item)| + if s.checking == Some(item) then 0 else 1;
    }
  }

  lemma FinishLostKeepsInv(s: State, a: Action, s': State)
    requires Inv(s) && Next(s, a, s') && a.FinishLost?
    ensures Inv(s')
  {
    var lost := s.workers[a.w].job;
    forall id | id in s'.jobs && s'.jobs[id].state == Running ensures id in s'.tainted || exists w :: Holds(s', w, id) {
      if id !in s'.tainted {
        var w :| Holds(s, w, id);
        assert Holds(s', w, id);
      }
    }
    forall item
      ensures |TaintedOf(s, item)| <= |TaintedOf(s', item)|
    {
      FewerThan(TaintedOf(s, item), TaintedOf(s', item));
    }
  }

  lemma CrashKeepsInv(s: State, a: Action, s': State)
    requires Inv(s) && Next(s, a, s') && a.Crash?
    ensures Inv(s')
  {
    forall id | id in s'.jobs && s'.jobs[id].state == Running ensures id in s'.tainted || exists w :: Holds(s', w, id) {
      if id !in s.tainted {
        var w :| Holds(s, w, id);
        assert Holds(s', w, id);
      }
    }
    assert forall item :: TaintedOf(s', item) == TaintedOf(s, item);
  }

  lemma RequeuedIsActive(s: State, a: Action, s': State, item: string)
    requires RunningAreAccounted(s) && Next(s, a, s') && a.Restart?
    ensures TaintedOf(s', item) == TaintedOf(s, item) && Active(s'.jobs, item) == Active(s.jobs, item)
  {
  }

  lemma RestartKeepsInv(s: State, a: Action, s': State)
    requires Inv(s) && Next(s, a, s') && a.Restart?
    ensures Inv(s')
  {
    forall item
      ensures |Active(s'.jobs, item)|
           <= |s'.workers| + |TaintedOf(s', item)| + if s'.checking == Some(item) then 0 else 1
    {
      RequeuedIsActive(s, a, s', item);
      assert |Active(s.jobs, item)| <= |s.workers| + |TaintedOf(s, item)| + if s.checking == Some(item) then 0 else 1;
    }
  }

  lemma StepKeepsInv(s: State, a: Action, s': State)
    requires Inv(s) && Next(s, a, s')
    ensures Inv(s') && KeepsTerminal(s.jobs, s'.jobs) && |s'.workers| == |s.workers|
  {
    match a
    case Check(_) => CheckKeepsInv(s, a, s');
    case GiveUp => CheckKeepsInv(s, a, s');
    case Create(_, _, _) => CreateKeepsInv(s, a, s');
    case Claim(_, _, _, _) => ClaimKeepsInv(s, a, s');
    case Finish(_, _, _, _) => FinishKeepsInv(s, a, s');
    case FinishLost(_) => FinishLostKeepsInv(s, a, s');
    case Crash => CrashKeepsInv(s, a, s');
    case Restart => RestartKeepsInv(s, a, s');
  }

  // ---------------------------------------------------------------- whole runs

  ghost predicate Run(concurrency: nat, states: seq<State>, actions: seq<Action>) {
    && |states| == |actions| + 1
    && states[0] == State(map[], seq(concurrency, w => Idle), None, {}, false)
    && (forall i :: 0 <= i < |actions| ==> Next(states[i], actions[i], states[i + 1]))
  }

  lemma {:induction false} RunsAreGood(concurrency: nat, states: seq<State>, actions: seq<Action>, i: nat)
    requires Run(concurrency, states, actions) && i < |states|
    ensures Inv(states[i]) && |states[i].workers| == concurrency
  {
    if i == 0 {
      assert forall item :: Active(states[0].jobs, item) == {};
    } else {
      RunsAreGood(concurrency, states, actions, i - 1);
      StepKeepsInv(states[i - 1], actions[i - 1], states[i]);
    }
  }

  /** No two workers ever hold one job, and a terminal job never changes again. */
  lemma {:induction false} TerminalIsForever(concurrency: nat, states: seq<State>, actions: seq<Action>, i: nat,
                                             j: nat, id: JobId)
    requires Run(concurrency, states, actions) && i <= j < |states|
    requires id in states[i].jobs
    ensures id in states[j].jobs
    ensures states[i].jobs[id].state.Terminal() ==> states[j].jobs[id] == states[i].jobs[id]
    ensures forall v, w :: Holds(states[j], v, id) && Holds(states[j], w, id) ==> v == w
  {
    RunsAreGood(concurrency, states, actions, j);
    if i < j {
      TerminalIsForever(concurrency, states, actions, i, j - 1, id);
      RunsAreGood(concurrency, states, actions, j - 1);
      StepKeepsInv(states[j - 1], actions[j - 1], states[j]);
    }
  }

  /** In every run a worker's terminal write finds its job running: it takes effect, it is the
      job's first, and it leaves the job with nobody. */
  lemma FinishIsNeverRefused(concurrency: nat, states: seq<State>, actions: seq<Action>, i: nat)
    requires Run(concurrency, states, actions) && i < |actions| && actions[i].Finish?
    ensures var s, s', a := states[i], states[i + 1], actions[i];
            && a.w < |s.workers| && s.workers[a.w].Busy? && s.workers[a.w].job in s.jobs
            && var id := s.workers[a.w].job;
            && s.jobs[id].state == Running && s'.jobs == Finished(s.jobs, id, a.end, a.code, a.now)
            && (forall w :: 0 <= w < |s'.workers| && !s'.workers[w].Idle? ==> s'.workers[w].job != id)
  {
    RunsAreGood(concurrency, states, actions, i);
    assert Next(states[i], actions[i], states[i + 1]);
  }

  ghost predicate NoLostWrites(actions: seq<Action>) { forall i :: 0 <= i < |actions| ==> !actions[i].FinishLost? }

  lemma {:induction false} NothingTainted(concurrency: nat, states: seq<State>, actions: seq<Action>, i: nat)
    requires Run(concurrency, states, actions) && NoLostWrites(actions) && i < |states|
    ensures states[i].tainted == {}
  {
    if i > 0 { NothingTainted(concurrency, states, actions, i - 1); }
  }

  /** While terminal writes take effect, an item never has more unfinished jobs than one per
      worker and one more. */
  lemma ItemIsBounded(concurrency: nat, states: seq<State>, actions: seq<Action>, i: nat, item: string)
    requires Run(concurrency, states, actions) && NoLostWrites(actions) && i < |states|
    ensures |Active(states[i].jobs, item)| <= concurrency + 1
  {
    RunsAreGood(concurrency, states, actions, i);
    NothingTainted(concurrency, states, actions, i);
    assert TaintedOf(states[i], item) == {};
  }

  /** At most one of them is queued until running jobs are requeued. */
  ghost predicate OneQueued(s: State) {
    forall item :: |QueuedOf(s.jobs, item)| <= if s.checking == Some(item) then 0 else 1
  }

  /** A restart that finds nothing running keeps what every other step keeps. */
  lemma StepKeepsOneQueued(s: State, a: Action, s': State)
    requires OneQueued(s) && Next(s, a, s')
    requires a.Restart? ==> InState(s.jobs, Running) == {}
    ensures OneQueued(s')
  {
    forall item ensures |QueuedOf(s'.jobs, item)| <= if s'.checking == Some(item) then 0 else 1 {
      assert |QueuedOf(s.jobs, item)| <= if s.checking == Some(item) then 0 else 1;
      QueueGrowth(s, a, s', item);
    }
  }

  lemma NotQueuedAnyMore(jobs: Jobs, id: JobId, job: Job, item: string)
    requires job.state != Queued
    ensures |QueuedOf(jobs[id := job], item)| <= |QueuedOf(jobs, item)|
  {
    FewerThan(QueuedOf(jobs[id := job], item), QueuedOf(jobs, item));
  }

  lemma OneMoreQueued(jobs: Jobs, id: JobId, owner: string, kind: Kind, now: nat, item: string)
    requires id !in jobs
    ensures |QueuedOf(jobs[id := Created(owner, kind, now)], item)|
         == |QueuedOf(jobs, item)| + if owner == item then 1 else 0
  {
    assert QueuedOf(jobs[id := Created(owner, kind, now)], item)
        == QueuedOf(jobs, item) + if owner == item then {id} else {};
  }

  lemma NothingToRequeue(jobs: Jobs)
    requires InState(jobs, Running) == {}
    ensures Requeued(jobs) == jobs
  {
    assert forall id :: id in jobs ==> id !in InState(jobs, Running);
  }

  lemma QueueGrowth(s: State, a: Action, s': State, item: string)
    requires Next(s, a, s') && (a.Restart? ==> InState(s.jobs, Running) == {})
    ensures |QueuedOf(s'.jobs, item)|
         <= |QueuedOf(s.jobs, item)| + if a.Create? && s.checking == Some(item) then 1 else 0
    ensures s'.checking == Some(item) && s'.checking != s.checking ==> QueuedOf(s.jobs, item) == {}
  {
    match a
    case Create(id, kind, now) => OneMoreQueued(s.jobs, id, s.checking.value, kind, now, item);
    case Claim(_, id, _, _) => NotQueuedAnyMore(s.jobs, id, s'.jobs[id], item);
    case Finish(w, end, code, now) =>
      var id := s.workers[w].job;
      NotQueuedAnyMore(s.jobs, id, s.jobs[id].(state := end, finishedAt := Some(now), code := code), item);
    case Restart => NothingToRequeue(s.jobs);
    case _ =>
  }

  /** A restart leaves an item with one queued job exactly if its running and queued jobs
      together were at most one. */
  lemma RestartAndQueue(s: State, a: Action, s': State, item: string)
    requires Inv(s) && Next(s, a, s') && a.Restart?
    ensures |QueuedOf(s'.jobs, item)| <= 1 <==> |Active(s.jobs, item)| <= 1
  {
    assert QueuedOf(s'.jobs, item) == Active(s.jobs, item);
  }

  /** Without a restart that requeues something, an item never has two queued jobs. */
  lemma {:induction false} OneQueuedUntilRequeue(concurrency: nat, states: seq<State>, actions: seq<Action>, i: nat)
    requires Run(concurrency, states, actions) && i < |states|
    requires forall k :: 0 <= k < i && actions[k].Restart? ==> InState(states[k].jobs, Running) == {}
    ensures OneQueued(states[i])
  {
    if i == 0 {
      assert forall item :: QueuedOf(states[0].jobs, item) == {};
    } else {
      OneQueuedUntilRequeue(concurrency, states, actions, i - 1);
      StepKeepsOneQueued(states[i - 1], actions[i - 1], states[i]);
    }
  }

  lemma OneMoreStep(concurrency: nat, states: seq<State>, actions: seq<Action>, a: Action, s': State)
    requires Run(concurrency, states, actions) && Next(states[|actions|], a, s')
    ensures Run(concurrency, states + [s'], actions + [a])
  {
  }

  const FIRST := Created("item", Manual, 1)
  const RUNNING := FIRST.(state := Running, startedAt := Some(2))
  const SECOND := Created("item", Manual, 3)
  const ONE_CLAIMED := State(map[0 := RUNNING], [Busy(0)], None, {}, true)
  const TO_ONE_CLAIMED: seq<Action> := [Restart, Check("item"), Create(0, Manual, 1), Claim(0, 0, {}, 2)]

  /** One worker that took the item's first job. */
  lemma OneClaimed() returns (states: seq<State>)
    ensures Run(1, states, TO_ONE_CLAIMED) && states[4] == ONE_CLAIMED
  {
    var s0 := State(map[], seq(1, w => Idle), None, {}, false);
    var s1 := State(map[], [Idle], None, {}, true);
    var s2 := s1.(checking := Some("item"));
    var s3 := s1.(jobs := map[0 := FIRST]);
    assert s3.jobs[0 := RUNNING] == ONE_CLAIMED.jobs;
    assert Next(s3, Claim(0, 0, {}, 2), ONE_CLAIMED);
    states := [s0, s1, s2, s3, ONE_CLAIMED];
  }

  const THEN_CRASH: seq<Action> := [Check("item"), Create(1, Manual, 3), Crash, Restart]

  /** One worker, one crash: a running and a queued job of one item are both queued after the
      restart. So one queued job per item is no invariant, and the bound of one per worker
      and one more is reached. */
  lemma RestartQueuesTwo() returns (states: seq<State>)
    ensures Run(1, states, TO_ONE_CLAIMED + THEN_CRASH) && NoLostWrites(TO_ONE_CLAIMED + THEN_CRASH)
    ensures |QueuedOf(states[8].jobs, "item")| == 2 == |Active(states[8].jobs, "item")|
  {
    states := OneClaimed();
    var s5 := ONE_CLAIMED.(checking := Some("item"));
    var s6 := ONE_CLAIMED.(jobs := map[0 := RUNNING, 1 := SECOND]);
    var s7 := s6.(workers := [Stopped(0)], up := false);
    var s8 := State(map[0 := FIRST, 1 := SECOND], [Idle], None, {}, true);
    assert Requeued(s7.jobs) == s8.jobs;
    states := ExtendFour(states, TO_ONE_CLAIMED, THEN_CRASH, [s5, s6, s7, s8]);
    assert QueuedOf(s8.jobs, "item") == {0, 1} == Active(s8.jobs, "item");
  }

  lemma ExtendFour(states: seq<State>, actions: seq<Action>, more: seq<Action>, next: seq<State>)
    returns (out: seq<State>)
    requires Run(1, states, actions) && |more| == 4 == |next|
    requires Next(states[|actions|], more[0], next[0]) && Next(next[0], more[1], next[1])
    requires Next(next[1], more[2], next[2]) && Next(next[2], more[3], next[3])
    ensures out == states + next && Run(1, out, actions + more)
  {
    OneMoreStep(1, states, actions, more[0], next[0]);
    OneMoreStep(1, states + [next[0]], actions + [more[0]], more[1], next[1]);
    OneMoreStep(1, states + [next[0]] + [next[1]], actions + [more[0]] + [more[1]], more[2], next[2]);
    OneMoreStep(1, states + [next[0]] + [next[1]] + [next[2]], actions + [more[0]] + [more[1]] + [more[2]], more[3],
      next[3]);
    out := states + next;
    assert out == states + [next[0]] + [next[1]] + [next[2]] + [next[3]];
    assert actions + more == actions + [more[0]] + [more[1]] + [more[2]] + [more[3]];
  }

  const THEN_LOST: seq<Action> := [FinishLost(0), Check("item"), Create(1, Manual, 3), Claim(0, 1, {}, 4)]

  const SECOND_RUNNING := SECOND.(state := Running, startedAt := Some(4))
  const ONE_LOST := State(map[0 := RUNNING, 1 := SECOND_RUNNING], [Busy(1)], None, {0}, true)

  /** The worker lost the terminal write of its job and took the next one. */
  lemma OneLost() returns (states: seq<State>)
    ensures Run(1, states, TO_ONE_CLAIMED + THEN_LOST) && states[8] == ONE_LOST
  {
    var before := OneClaimed();
    var s5 := ONE_CLAIMED.(workers := [Idle], tainted := {0});
    var s6 := s5.(checking := Some("item"));
    var s7 := s5.(jobs := map[0 := RUNNING, 1 := SECOND]);
    assert IsQueued(s7.jobs, 1) && Claimed(s7.jobs, 1, 4) == ONE_LOST.jobs;
    states := ExtendFour(before, TO_ONE_CLAIMED, THEN_LOST, [s5, s6, s7, ONE_LOST]);
  }

  /** One worker, one lost terminal write: the abandoned job, the job the worker took next and
      the one queued behind it are three, so a lost write adds one to the bound. */
  lemma LostWriteAddsOne() returns (states: seq<State>)
    ensures Run(1, states, TO_ONE_CLAIMED + THEN_LOST + [Check("item")] + [Create(2, Manual, 5)])
    ensures |Active(states[10].jobs, "item")| == 3 && TaintedOf(states[10], "item") == {0}
  {
    states := OneLost();
    var s9 := ONE_LOST.(checking := Some("item"));
    var s10 := ONE_LOST.(jobs := ONE_LOST.jobs[2 := Created("item", Manual, 5)]);
    OneMoreStep(1, states, TO_ONE_CLAIMED + THEN_LOST, Check("item"), s9);
    states := states + [s9];
    OneMoreStep(1, states, TO_ONE_CLAIMED + THEN_LOST + [Check("item")], Create(2, Manual, 5), s10);
    states := states + [s10];
    assert Active(s10.jobs, "item") == {0, 1, 2};
  }
}
