/** The queue is first come, first served: over whole runs no claim passes over a waiting job for a
    later one, and a job waits for at most the claims of those ahead of it. */
module Fifo {
  import opened Wrappers
  import opened JobStore
  import opened JobProtocol

  predicate Waiting(jobs: Jobs, id: JobId) { id in jobs && jobs[id].state == Queued }

  /** The waiting jobs created before this one, by the id where they were created together. */
  function Ahead(jobs: Jobs, id: JobId): set<JobId> {
    set x | x in jobs && id in jobs && jobs[x].state == Queued
            && (jobs[x].createdAt < jobs[id].createdAt || (jobs[x].createdAt == jobs[id].createdAt && x < id))
  }

  /** In every run a claim that finds a job waiting and unlocked takes it or one created no
      later. */
  lemma NoOvertaking(concurrency: nat, states: seq<State>, actions: seq<Action>, k: nat, id: JobId)
    requires Run(concurrency, states, actions) && k < |actions| && actions[k].Claim?
    requires Waiting(states[k].jobs, id) && id !in actions[k].locked
    ensures var jobs, other := states[k].jobs, actions[k].id;
            && other in jobs && other in states[k + 1].jobs && states[k + 1].jobs[other].state == Running
            && jobs[other].createdAt <= jobs[id].createdAt
            && (jobs[other].createdAt == jobs[id].createdAt ==> other <= id)
  {
    assert Next(states[k], actions[k], states[k + 1]);
    assert id in InState(states[k].jobs, Queued) - actions[k].locked;
  }

  /** From state i to state j the job waits, and no claim finds it locked. */
  ghost predicate WaitsFrom(states: seq<State>, actions: seq<Action>, i: nat, j: nat, id: JobId)
    requires |states| == |actions| + 1 && i <= j < |states|
  {
    && (forall k :: i <= k <= j ==> Waiting(states[k].jobs, id))
    && (forall k :: i <= k < j && actions[k].Claim? ==> id !in actions[k].locked)
  }

  function Sum(xs: seq<nat>, i: nat, j: nat): nat
    requires i <= j <= |xs|
  {
    if i == j then 0 else Sum(xs, i, j - 1) + xs[j - 1]
  }

  function IsClaim(actions: seq<Action>): seq<nat> {
    seq(|actions|, k requires 0 <= k < |actions| => if actions[k].Claim? then 1 else 0)
  }

  /** How many jobs each step puts ahead of this one. */
  function Joins(states: seq<State>, id: JobId): seq<nat>
    requires states != []
  {
    seq(|states| - 1, k requires 0 <= k < |states| - 1 => |Ahead(states[k + 1].jobs, id) - Ahead(states[k].jobs, id)|)
  }

  function Lengths(states: seq<State>, id: JobId): seq<nat> {
    seq(|states|, k requires 0 <= k < |states| => |Ahead(states[k].jobs, id)|)
  }

  /** The claims between two states, and the jobs that got ahead of this one between them. */
  function Claims(actions: seq<Action>, i: nat, j: nat): nat
    requires i <= j <= |actions|
  {
    Sum(IsClaim(actions), i, j)
  }

  function Joined(states: seq<State>, i: nat, j: nat, id: JobId): nat
    requires i <= j < |states|
  {
    Sum(Joins(states, id), i, j)
  }

  lemma {:induction false} Telescopes(len: seq<nat>, more: seq<nat>, less: seq<nat>, i: nat, j: nat)
    requires i <= j < |len| && j <= |more| && j <= |less|
    requires forall k :: i <= k < j ==> len[k + 1] + less[k] == len[k] + more[k]
    ensures len[j] + Sum(less, i, j) == len[i] + Sum(more, i, j)
  {
    if i < j { Telescopes(len, more, less, i, j - 1); }
  }

  lemma ClaimShortens(s: State, a: Action, s': State, id: JobId)
    requires Next(s, a, s') && a.Claim? && Waiting(s.jobs, id) && Waiting(s'.jobs, id) && id !in a.locked
    ensures a.id in Ahead(s.jobs, id) && Ahead(s'.jobs, id) == Ahead(s.jobs, id) - {a.id}
  {
    assert id in InState(s.jobs, Queued) - a.locked;
  }

  lemma OtherKeepsAhead(s: State, a: Action, s': State, id: JobId)
    requires Inv(s) && Next(s, a, s') && !a.Claim? && Waiting(s.jobs, id)
    ensures id in s'.jobs && s'.jobs[id].createdAt == s.jobs[id].createdAt
    ensures Ahead(s.jobs, id) <= Ahead(s'.jobs, id)
  {
    match a
    case Finish(w, _, _, _) => assert s.jobs[s.workers[w].job].state == Running;
    case _ =>
  }

  lemma StepCounts(s: State, a: Action, s': State, id: JobId)
    requires Inv(s) && Next(s, a, s') && Waiting(s.jobs, id) && Waiting(s'.jobs, id)
    requires a.Claim? ==> id !in a.locked
    ensures |Ahead(s'.jobs, id)| + (if a.Claim? then 1 else 0)
         == |Ahead(s.jobs, id)| + |Ahead(s'.jobs, id) - Ahead(s.jobs, id)|
  {
    var x, y := Ahead(s.jobs, id), Ahead(s'.jobs, id);
    if a.Claim? {
      ClaimShortens(s, a, s', id);
      assert y - x == {};
    } else {
      OtherKeepsAhead(s, a, s', id);
      assert x + (y - x) == y;
    }
  }

  lemma OneStepCounts(concurrency: nat, states: seq<State>, actions: seq<Action>, k: nat, id: JobId)
    requires Run(concurrency, states, actions) && k < |actions|
    requires Waiting(states[k].jobs, id) && Waiting(states[k + 1].jobs, id)
    requires actions[k].Claim? ==> id !in actions[k].locked
    ensures Lengths(states, id)[k + 1] + IsClaim(actions)[k] == Lengths(states, id)[k] + Joins(states, id)[k]
  {
    RunsAreGood(concurrency, states, actions, k);
    StepCounts(states[k], actions[k], states[k + 1], id);
    assert Joins(states, id)[k] == |Ahead(states[k + 1].jobs, id) - Ahead(states[k].jobs, id)|;
  }

  /** The queue ahead of a waiting job shrinks by one with every claim and grows only by those
      that join it; so the job waits for at most so many claims. */
  lemma EveryClaimShortens(concurrency: nat, states: seq<State>, actions: seq<Action>, i: nat, j: nat, id: JobId)
    requires Run(concurrency, states, actions) && i <= j < |states| && WaitsFrom(states, actions, i, j, id)
    ensures |Ahead(states[j].jobs, id)| + Claims(actions, i, j)
         == |Ahead(states[i].jobs, id)| + Joined(states, i, j, id)
  {
    var len, more, less := Lengths(states, id), Joins(states, id), IsClaim(actions);
    forall k | i <= k < j ensures len[k + 1] + less[k] == len[k] + more[k] {
      OneStepCounts(concurrency, states, actions, k, id);
    }
    Telescopes(len, more, less, i, j);
  }

  /** Only a requeue or a job with an earlier creation date gets ahead of it. */
  lemma WhoJoins(s: State, a: Action, s': State, id: JobId, x: JobId)
    requires Inv(s) && Next(s, a, s') && Waiting(s.jobs, id) && id in s'.jobs
    requires x in Ahead(s'.jobs, id) && x !in Ahead(s.jobs, id)
    ensures (a.Restart? && x in s.jobs && s.jobs[x].state == Running)
         || (a.Create? && x == a.id && a.now <= s.jobs[id].createdAt)
  {
    if !a.Claim? { OtherKeepsAhead(s, a, s', id); }
  }

  /** Nothing is requeued meanwhile, and the clock has moved on from the job's creation. */
  ghost predicate OnlyLater(states: seq<State>, actions: seq<Action>, i: nat, j: nat, id: JobId)
    requires |states| == |actions| + 1 && i <= j < |states| && id in states[i].jobs
  {
    forall k :: i <= k < j ==>
      !actions[k].Restart? && (actions[k].Create? ==> actions[k].now > states[i].jobs[id].createdAt)
  }

  lemma NobodyJoinsNow(concurrency: nat, states: seq<State>, actions: seq<Action>, k: nat, id: JobId)
    requires Run(concurrency, states, actions) && k < |actions| && Waiting(states[k].jobs, id)
    requires Waiting(states[k + 1].jobs, id) && !actions[k].Restart?
    requires actions[k].Create? ==> actions[k].now > states[k].jobs[id].createdAt
    ensures Joins(states, id)[k] == 0
  {
    var s, a, s' := states[k], actions[k], states[k + 1];
    RunsAreGood(concurrency, states, actions, k);
    assert Next(s, a, s');
    forall x | x in Ahead(s'.jobs, id) ensures x in Ahead(s.jobs, id) {
      if x !in Ahead(s.jobs, id) { WhoJoins(s, a, s', id, x); }
    }
    assert Ahead(s'.jobs, id) - Ahead(s.jobs, id) == {};
  }

  lemma {:induction false} CreationStays(concurrency: nat, states: seq<State>, actions: seq<Action>, i: nat, j: nat,
                                         id: JobId)
    requires Run(concurrency, states, actions) && i <= j < |states| && id in states[i].jobs
    ensures id in states[j].jobs && states[j].jobs[id].createdAt == states[i].jobs[id].createdAt
  {
    if i < j {
      CreationStays(concurrency, states, actions, i, j - 1, id);
      StepKeepsCreation(states[j - 1], actions[j - 1], states[j], id);
    }
  }

  lemma StepKeepsCreation(s: State, a: Action, s': State, id: JobId)
    requires Next(s, a, s') && id in s.jobs
    ensures id in s'.jobs && s'.jobs[id].createdAt == s.jobs[id].createdAt
  {
  }

  lemma {:induction false} NothingAddsUp(xs: seq<nat>, i: nat, j: nat)
    requires i <= j <= |xs| && forall k :: i <= k < j ==> xs[k] == 0
    ensures Sum(xs, i, j) == 0
  {
    if i < j { NothingAddsUp(xs, i, j - 1); }
  }

  lemma NobodyJoins(concurrency: nat, states: seq<State>, actions: seq<Action>, i: nat, j: nat, id: JobId)
    requires Run(concurrency, states, actions) && i <= j < |states| && WaitsFrom(states, actions, i, j, id)
    requires OnlyLater(states, actions, i, j, id)
    ensures Joined(states, i, j, id) == 0
  {
    var joins := Joins(states, id);
    forall k | i <= k < j ensures joins[k] == 0 {
      CreationStays(concurrency, states, actions, i, k, id);
      NobodyJoinsNow(concurrency, states, actions, k, id);
    }
    NothingAddsUp(joins, i, j);
  }

  /** The next step is a claim that does not find the job locked. */
  predicate ClaimsUnlocked(actions: seq<Action>, j: nat, id: JobId) {
    j < |actions| && actions[j].Claim? && id !in actions[j].locked
  }

  /** A job waits for at most as many claims as there were jobs ahead of it, and once they are all
      claimed the next claim is its own. */
  lemma WaitIsBounded(concurrency: nat, states: seq<State>, actions: seq<Action>, i: nat, j: nat, id: JobId)
    requires Run(concurrency, states, actions) && i <= j < |states| && WaitsFrom(states, actions, i, j, id)
    requires OnlyLater(states, actions, i, j, id)
    ensures Claims(actions, i, j) <= |Ahead(states[i].jobs, id)|
    ensures Claims(actions, i, j) == |Ahead(states[i].jobs, id)| && ClaimsUnlocked(actions, j, id) ==>
              actions[j].id == id
  {
    EveryClaimShortens(concurrency, states, actions, i, j, id);
    NobodyJoins(concurrency, states, actions, i, j, id);
    if Claims(actions, i, j) == |Ahead(states[i].jobs, id)| && ClaimsUnlocked(actions, j, id) {
      NoOvertaking(concurrency, states, actions, j, id);
      assert Next(states[j], actions[j], states[j + 1]);
      assert actions[j].id !in Ahead(states[j].jobs, id);
    }
  }
}
