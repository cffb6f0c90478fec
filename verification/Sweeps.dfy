/** What the periodic sweep does over whole runs. */
module Sweeps {
  import opened Wrappers
  import opened Notifications
  import opened Repository
  import opened SendNotification
  import opened QueueTasks
  import opened Protocol
  import opened Consistency
  import opened Evolution
  import opened Accounting

  // ----- which rows are ever picked -----

  /** RETRYING rows are never rewritten, so they only become more, and older rows only more numerous. */
  lemma RetryingOnlyGrows(env: Env, s: State, acts: seq<Action>, time: Time)
    requires Inv(env, s) && Run(env, s, acts)
    ensures RetryingIds(s.rows) <= RetryingIds(After(env, s, acts).rows)
    ensures RetryingBefore(s.rows, time) <= RetryingBefore(After(env, s, acts).rows, time)
  {
    forall id | id in RetryingIds(s.rows)
      ensures id in After(env, s, acts).rows && After(env, s, acts).rows[id] == s.rows[id]
    {
      RunEvolves(env, s, acts, id);
    }
  }

  ghost predicate NeverPicked(env: Env, s: State, id: Id) {
    forall acts, ids :: Run(env, s, acts) && IsOldest(After(env, s, acts).rows, ids, SWEEP_LIMIT) ==> id !in ids
  }

  /** The sweep is meant to save RETRYING rows from being forgotten. It never picks a row again, in any future of the
      system, exactly when 100 RETRYING rows are strictly older, since those are never taken off the list. */
  lemma NeverPickedIff(env: Env, s: State, id: Id)
    requires Reachable(env, s) && id in RetryingIds(s.rows)
    ensures NeverPicked(env, s, id) <==> |RetryingBefore(s.rows, s.rows[id].createdAt)| >= 100
  {
    ReachableInv(env, s);
    if |RetryingBefore(s.rows, s.rows[id].createdAt)| >= SWEEP_LIMIT {
      forall acts, ids | Run(env, s, acts) && IsOldest(After(env, s, acts).rows, ids, SWEEP_LIMIT)
        ensures id !in ids
      {
        StaysCrowdedOut(env, s, acts, ids, id);
      }
    } else {
      PickableIff(s.rows, SWEEP_LIMIT, id);
      var ids :| IsOldest(s.rows, ids, SWEEP_LIMIT) && id in ids;
      assert Run(env, s, []) && After(env, s, []) == s;
    }
  }

  lemma StaysCrowdedOut(env: Env, s: State, acts: seq<Action>, ids: seq<Id>, id: Id)
    requires Inv(env, s) && id in RetryingIds(s.rows)
    requires |RetryingBefore(s.rows, s.rows[id].createdAt)| >= SWEEP_LIMIT
    requires Run(env, s, acts) && IsOldest(After(env, s, acts).rows, ids, SWEEP_LIMIT)
    ensures id !in ids
  {
    var rows' := After(env, s, acts).rows;
    RunEvolves(env, s, acts, id);
    RetryingOnlyGrows(env, s, acts, s.rows[id].createdAt);
    SubsetSize(RetryingBefore(s.rows, s.rows[id].createdAt), RetryingBefore(rows', s.rows[id].createdAt));
    PickableIff(rows', SWEEP_LIMIT, id);
  }

  /** The creation time a full sweep reaches never moves forward. */
  lemma CutoffNeverAdvances(env: Env, s: State, acts: seq<Action>, ids: seq<Id>, later: seq<Id>)
    requires Reachable(env, s) && Run(env, s, acts)
    requires IsOldest(s.rows, ids, SWEEP_LIMIT) && |ids| == SWEEP_LIMIT
    requires IsOldest(After(env, s, acts).rows, later, SWEEP_LIMIT)
    ensures |later| == SWEEP_LIMIT
    ensures After(env, s, acts).rows[later[SWEEP_LIMIT - 1]].createdAt <= s.rows[ids[SWEEP_LIMIT - 1]].createdAt
  {
    ReachableInv(env, s);
    var rows' := After(env, s, acts).rows;
    var cutoff := s.rows[ids[SWEEP_LIMIT - 1]].createdAt;
    RetryingOnlyGrows(env, s, acts, cutoff);
    SubsetSize(RetryingIds(s.rows), RetryingIds(rows'));
    var time := rows'[later[SWEEP_LIMIT - 1]].createdAt;
    if time > cutoff {
      forall id | id in Elements(ids)
        ensures id in RetryingBefore(rows', time)
      {
        RunEvolves(env, s, acts, id);
        var k :| 0 <= k < |ids| && ids[k] == id;
        assert s.rows[ids[k]].createdAt <= cutoff;
      }
      DistinctSize(ids);
      SubsetSize(Elements(ids), RetryingBefore(rows', time));
      PickedHasFewOlder(rows', later, SWEEP_LIMIT, SWEEP_LIMIT - 1);
    }
  }

  // ----- what one sweep enqueues -----

  function Steps(w: nat, n: nat): (r: seq<Action>)
    ensures |r| == n
    ensures forall i :: 0 <= i < n ==> r[i] == SweepNext(w)
  {
    if n == 0 then [] else [SweepNext(w)] + Steps(w, n - 1)
  }

  function JobsFor(pending: seq<Entity>): seq<Job> {
    seq(|pending|, k requires 0 <= k < |pending| => Job(SweepPayload(pending[k]), 0, Idle))
  }

  /** Undisturbed, a sweep enqueues one message per row it read. */
  lemma {:induction false} SweepEnqueuesAll(env: Env, s: State, w: nat)
    requires Inv(env, s) && w < |s.sweeps|
    ensures var steps := Steps(w, |s.sweeps[w]|);
      && Run(env, s, steps)
      && After(env, s, steps) == s.(jobs := s.jobs + JobsFor(s.sweeps[w]), sweeps := s.sweeps[w := []])
    decreases |s.sweeps[w]|
  {
    var pending := s.sweeps[w];
    if pending == [] {
      assert s.sweeps[w := []] == s.sweeps;
      assert s.jobs + JobsFor(pending) == s.jobs;
    } else {
      var a := SweepNext(w);
      var steps := Steps(w, |pending|);
      assert PendingOk(s.rows, pending);
      assert RowOk(env, s.rows[pending[0].id]);
      assert pending[0].CanRetry();
      StepKeepsInv(env, s, a);
      SweepEnqueuesAll(env, Apply(env, s, a), w);
      assert steps[1..] == Steps(w, |pending| - 1);
      assert s.jobs + JobsFor(pending) == (s.jobs + [Job(SweepPayload(pending[0]), 0, Idle)]) + JobsFor(pending[1..]);
      assert s.sweeps[w := pending[1..]][w := []] == s.sweeps[w := []];
    }
  }

  /** The messages the loop of sweep `w` enqueues in the course of a run. */
  ghost function EnqueuedBy(env: Env, s: State, acts: seq<Action>, w: nat): seq<Job>
    requires Run(env, s, acts)
    decreases |acts|
  {
    if acts == [] then []
    else
      var s' := Apply(env, s, acts[0]);
      (if acts[0] == SweepNext(w) then s'.jobs[|s.jobs|..] else []) + EnqueuedBy(env, s', acts[1..], w)
  }

  function Iterations(acts: seq<Action>, w: nat): nat {
    if acts == [] then 0 else One(acts[0] == SweepNext(w)) + Iterations(acts[1..], w)
  }

  /** An iteration takes the oldest row left and enqueues one message for it. */
  lemma IterationEnqueues(env: Env, s: State, w: nat)
    requires Inv(env, s) && Enabled(env, s, SweepNext(w))
    ensures var s' := Apply(env, s, SweepNext(w));
      && s'.sweeps[w] == s.sweeps[w][1..]
      && s'.jobs[|s.jobs|..] == [Job(SweepPayload(s.sweeps[w][0]), 0, Idle)]
  {
    assert PendingOk(s.rows, s.sweeps[w]);
    assert RowOk(env, s.rows[s.sweeps[w][0].id]);
  }

  lemma JobsForNext(pending: seq<Entity>, n: nat)
    requires n < |pending|
    ensures JobsFor(pending[..n + 1]) == [Job(SweepPayload(pending[0]), 0, Idle)] + JobsFor(pending[1..][..n])
    ensures pending[1..][n..] == pending[n + 1..]
  {
  }

  lemma OthersKeepSweep(env: Env, s: State, a: Action, w: nat)
    requires Enabled(env, s, a) && w < |s.sweeps| && a != SweepNext(w)
    ensures var s' := Apply(env, s, a);
      w < |s'.sweeps| && s'.sweeps[w] == if a == SweepCrash(w) then [] else s.sweeps[w]
  {
  }

  /** Whatever runs beside it, each iteration enqueues the next message of what the sweep has read. */
  lemma {:induction false} LoopEnqueues(env: Env, s: State, acts: seq<Action>, w: nat)
    requires Inv(env, s) && Run(env, s, acts) && w < |s.sweeps|
    ensures var n := Iterations(acts, w);
      && n <= |s.sweeps[w]| && w < |After(env, s, acts).sweeps|
      && EnqueuedBy(env, s, acts, w) == JobsFor(s.sweeps[w][..n])
      && (SweepCrash(w) !in acts ==> After(env, s, acts).sweeps[w] == s.sweeps[w][n..])
    decreases |acts|
  {
    if acts == [] {
    } else {
      var a := acts[0];
      StepKeepsInv(env, s, a);
      LoopEnqueues(env, Apply(env, s, a), acts[1..], w);
      if a == SweepNext(w) {
        IterationEnqueues(env, s, w);
        JobsForNext(s.sweeps[w], Iterations(acts[1..], w));
      } else {
        OthersKeepSweep(env, s, a, w);
      }
    }
  }

  /** A sweep reads the oldest min(100, number of RETRYING rows) rows. Whatever runs between its iterations, and even if
      its worker dies, the loop enqueues one message per iteration, for the rows it read and in their order; a loop that
      ends has served them all. At every moment no provider has ever reported a success for any of these rows. */
  lemma SweepIsExact(env: Env, s: State, ids: seq<Id>, acts: seq<Action>)
    requires Reachable(env, s) && Enabled(env, s, Query(ids)) && Run(env, Apply(env, s, Query(ids)), acts)
    ensures
      var w := |s.sweeps|;
      var s1 := Apply(env, s, Query(ids));
      var s2 := After(env, s1, acts);
      var jobs := JobsFor(Entities(s.rows, ids));
      var n := Iterations(acts, w);
      && n <= |ids| == |jobs| == Min(100, |RetryingIds(s.rows)|)
      && EnqueuedBy(env, s1, acts, w) == jobs[..n]
      && (forall k :: 0 <= k < |ids| ==> jobs[k] == Job(Payload(s.rows[ids[k]].request, None), 0, Idle))
      && w < |s2.sweeps|
      && (SweepCrash(w) !in acts ==> s2.sweeps[w] == Entities(s.rows, ids)[n..])
      && (SweepCrash(w) !in acts && s2.sweeps[w] == [] ==> EnqueuedBy(env, s1, acts, w) == jobs)
      && (forall k :: 0 <= k < |ids| ==> SuccessesOf(s2.log, ids[k]) == 0)
  {
    var w := |s.sweeps|;
    var s1 := Apply(env, s, Query(ids));
    var s2 := After(env, s1, acts);
    ReachableInv(env, s);
    StepKeepsInv(env, s, Query(ids));
    LoopEnqueues(env, s1, acts, w);
    var n := Iterations(acts, w);
    assert JobsFor(Entities(s.rows, ids)[..n]) == JobsFor(Entities(s.rows, ids))[..n];
    RunOne(env, s, Query(ids));
    ReachableRun(env, s, [Query(ids)]);
    ReachableRun(env, s1, acts);
    forall k | 0 <= k < |ids|
      ensures SuccessesOf(s2.log, ids[k]) == 0
    {
      RunEvolves(env, s1, acts, ids[k]);
      RowsMatchSuccesses(env, s2, ids[k]);
    }
  }

  /** Such a run exists: the sweep undisturbed. */
  lemma SweepRealised(env: Env, s: State, ids: seq<Id>)
    requires Reachable(env, s) && IsOldest(s.rows, ids, SWEEP_LIMIT)
    ensures var acts := [Query(ids)] + Steps(|s.sweeps|, |ids|);
      && Run(env, s, acts)
      && After(env, s, acts).jobs == s.jobs + JobsFor(Entities(s.rows, ids))
      && After(env, s, acts).rows == s.rows
  {
    ReachableInv(env, s);
    StepKeepsInv(env, s, Query(ids));
    RunOne(env, s, Query(ids));
    var s1 := Apply(env, s, Query(ids));
    SweepEnqueuesAll(env, s1, |s.sweeps|);
    RunAppend(env, s, [Query(ids)], Steps(|s.sweeps|, |ids|));
  }

  /** In every reachable state the loop of `RetryPendingNotifications` skips nothing:
      it enqueues what the steps of one sweep enqueue. */
  lemma {:induction false} ResubmitsAll(env: Env, s: State, ids: seq<Id>)
    requires Reachable(env, s) && IsOldest(s.rows, ids, SWEEP_LIMIT)
    ensures var sent := Resubmitted(Entities(s.rows, ids));
      && |sent| == Min(SWEEP_LIMIT, |RetryingIds(s.rows)|)
      && (forall k :: 0 <= k < |sent| ==> sent[k] == Payload(s.rows[ids[k]].request, None))
      && JobsFor(Entities(s.rows, ids)) == seq(|sent|, k requires 0 <= k < |sent| => Job(sent[k], 0, Idle))
  {
    ReachableInv(env, s);
    var pending := Entities(s.rows, ids);
    forall k | 0 <= k < |pending|
      ensures pending[k].CanRetry()
    {
      assert RowOk(env, s.rows[ids[k]]);
    }
    ResubmittedAll(pending);
  }
}
