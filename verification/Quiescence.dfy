/** Without crashes and database failures, whether providers accept, refuse or raise, work always ends
    and leaves no row in QUEUED. */
module Quiescence {
  import opened Wrappers
  import opened Notifications
  import opened Providers
  import opened Repository
  import opened SendNotification
  import opened QueueTasks
  import opened Protocol
  import opened Consistency
  import opened Evolution
  import opened Accounting

  /** Steps of work already under way: no new request, report, sweep, crash or database failure. */
  ghost predicate Calm(env: Env, s: State, a: Action) {
    && Enabled(env, s, a)
    && match a
       case Begin(_) => true
       case Resolve(_, _, _, _) => true
       case FirstSave(_, _, db) => db.Commits?
       case CallProvider(_, _, _) => true
       case FinalSave(_, _, db) => db.Commits?
       case Enqueue(_) => true
       case Read(_, _) => true
       case SaveUpdate(_, _, db) => db.Commits?
       case SweepNext(_) => true
       case _ => false
  }

  // ----- the measure -----

  function Sum<T>(items: seq<T>, weight: T -> nat): nat {
    if items == [] then 0 else Sum(items[..|items| - 1], weight) + weight(items[|items| - 1])
  }

  lemma {:induction false} SumUpdate<T>(items: seq<T>, weight: T -> nat, i: nat, item: T)
    requires i < |items|
    ensures Sum(items[i := item], weight) + weight(items[i]) == Sum(items, weight) + weight(item)
  {
    var n := |items| - 1;
    if i == n {
      assert items[i := item][..n] == items[..n];
    } else {
      SumUpdate(items[..n], weight, i, item);
      assert items[i := item][..n] == items[..n][i := item];
    }
  }

  lemma SumAppend<T>(items: seq<T>, weight: T -> nat, item: T)
    ensures Sum(items + [item], weight) == Sum(items, weight) + weight(item)
  {
  }

  function RetriesLeft(retries: nat): nat {
    if retries < MAX_RETRIES then MAX_RETRIES - retries else 0
  }

  /** What is left of a message: its retries, and how far it is from its first save. */
  function DeliveryWeight(job: Job): nat {
    match job.phase
    case Finished(_) => 0
    case Idle => 3 * RetriesLeft(job.retries) + 3
    case Started => 3 * RetriesLeft(job.retries) + 2
    case _ => 3 * RetriesLeft(job.retries) + 1
  }

  /** What is left of an execution after its first save: candidates not called yet, and the last save. */
  function CandidateWeight(job: Job): nat {
    match job.phase
    case Prepared(_, plan) => |plan.candidates| + 2
    case Trying(_, plan, index, _) => if index < |plan.candidates| then |plan.candidates| - index + 1 else 0
    case Concluding(_) => 1
    case _ => 0
  }

  function TaskWeight(task: Task): nat {
    match task.phase
    case Located => 3
    case Waiting => 2
    case Judging(_) => 1
    case Over => 0
  }

  function SweepWeight(pending: seq<Entity>): nat {
    13 * |pending|
  }

  function Deliveries(s: State): nat {
    Sum(s.jobs, DeliveryWeight) + Sum(s.sweeps, SweepWeight)
  }

  function Calls(s: State): nat {
    Sum(s.jobs, CandidateWeight) + Sum(s.tasks, TaskWeight)
  }

  ghost predicate Decreases(s: State, s': State) {
    Deliveries(s') < Deliveries(s) || (Deliveries(s') == Deliveries(s) && Calls(s') < Calls(s))
  }

  lemma JobDecreases(s: State, s': State, j: nat)
    requires j < |s.jobs| && |s'.jobs| == |s.jobs| && s'.jobs == s.jobs[j := s'.jobs[j]]
    requires s'.tasks == s.tasks && s'.sweeps == s.sweeps
    requires DeliveryWeight(s'.jobs[j]) < DeliveryWeight(s.jobs[j])
      || (DeliveryWeight(s'.jobs[j]) == DeliveryWeight(s.jobs[j]) && CandidateWeight(s'.jobs[j]) < CandidateWeight(s.jobs[j]))
    ensures Decreases(s, s')
  {
    SumUpdate(s.jobs, DeliveryWeight, j, s'.jobs[j]);
    SumUpdate(s.jobs, CandidateWeight, j, s'.jobs[j]);
  }

  lemma TaskDecreases(s: State, s': State, t: nat)
    requires t < |s.tasks| && |s'.tasks| == |s.tasks| && s'.tasks == s.tasks[t := s'.tasks[t]]
    requires s'.jobs == s.jobs && s'.sweeps == s.sweeps
    requires TaskWeight(s'.tasks[t]) < TaskWeight(s.tasks[t])
    ensures Decreases(s, s')
  {
    SumUpdate(s.tasks, TaskWeight, t, s'.tasks[t]);
  }

  lemma SweepDecreases(env: Env, s: State, w: nat)
    requires Enabled(env, s, SweepNext(w))
    ensures Decreases(s, Apply(env, s, SweepNext(w)))
  {
    SumUpdate(s.sweeps, SweepWeight, w, s.sweeps[w][1..]);
    SumAppend(s.jobs, DeliveryWeight, Job(SweepPayload(s.sweeps[w][0]), 0, Idle));
  }

  lemma CallDecreases(s: State, j: nat, vendor: Outcome, now: Time)
    requires j < |s.jobs| && s.jobs[j].phase.Trying? && s.jobs[j].phase.index < |s.jobs[j].phase.plan.candidates|
    ensures Decreases(s, AfterCall(s, j, vendor, now))
  {
    JobDecreases(s, AfterCall(s, j, vendor, now), j);
  }

  lemma ResolveDecreases(env: Env, s: State, a: Action)
    requires Enabled(env, s, a) && (a.Begin? || a.Resolve?)
    ensures Decreases(s, Apply(env, s, a))
  {
    JobDecreases(s, Apply(env, s, a), a.j);
  }

  lemma SaveDecreases(env: Env, s: State, a: Action)
    requires Calm(env, s, a) && (a.FirstSave? || a.FinalSave?)
    ensures Decreases(s, Apply(env, s, a))
  {
    JobDecreases(s, Apply(env, s, a), a.j);
  }

  lemma UpdateDecreases(env: Env, s: State, a: Action)
    requires Calm(env, s, a) && (a.Enqueue? || a.Read? || a.SaveUpdate?)
    ensures Decreases(s, Apply(env, s, a))
  {
    TaskDecreases(s, Apply(env, s, a), a.t);
  }

  lemma CalmDecreases(env: Env, s: State, a: Action)
    requires Calm(env, s, a)
    ensures Decreases(s, Apply(env, s, a))
  {
    if a.CallProvider? {
      CallDecreases(s, a.j, a.vendor, a.now);
    } else if a.Begin? || a.Resolve? {
      ResolveDecreases(env, s, a);
    } else if a.FirstSave? || a.FinalSave? {
      SaveDecreases(env, s, a);
    } else if a.SweepNext? {
      SweepDecreases(env, s, a.w);
    } else {
      UpdateDecreases(env, s, a);
    }
  }

  ghost predicate CalmTo(env: Env, s: State, s': State) {
    exists a :: Calm(env, s, a) && Apply(env, s, a) == s'
  }

  lemma CalmToDecreases(env: Env, s: State, s': State, deliveries: nat, calls: nat)
    requires CalmTo(env, s, s') && deliveries == Deliveries(s) && calls == Calls(s)
    ensures Deliveries(s') < deliveries || (Deliveries(s') == deliveries && Calls(s') < calls)
  {
    var a :| Calm(env, s, a) && Apply(env, s, a) == s';
    CalmDecreases(env, s, a);
  }

  /** No endless run of calm steps, however long the candidate lists are and whatever vendors answer. */
  lemma CalmRunEnds(env: Env, run: nat -> State, from: nat) returns (n: nat)
    ensures n >= from && !CalmTo(env, run(n), run(n + 1))
  {
    n := CalmRunEndsBy(env, run, from, Deliveries(run(from)), Calls(run(from)));
  }

  lemma CalmRunEndsBy(env: Env, run: nat -> State, from: nat, deliveries: nat, calls: nat) returns (n: nat)
    requires deliveries == Deliveries(run(from)) && calls == Calls(run(from))
    ensures n >= from && !CalmTo(env, run(n), run(n + 1))
    decreases deliveries, calls
  {
    if CalmTo(env, run(from), run(from + 1)) {
      var next := run(from + 1);
      CalmToDecreases(env, run(from), next, deliveries, calls);
      n := CalmRunEndsBy(env, run, from + 1, Deliveries(next), Calls(next));
    } else {
      n := from;
    }
  }

  // ----- progress -----

  ghost predicate AllDone(s: State) {
    && (forall j :: 0 <= j < |s.jobs| ==> s.jobs[j].phase.Finished?)
    && (forall t :: 0 <= t < |s.tasks| ==> s.tasks[t].phase.Over?)
    && (forall w :: 0 <= w < |s.sweeps| ==> s.sweeps[w] == [])
  }

  /** Unfinished work can always go on. */
  lemma UnfinishedCanStep(env: Env, s: State) returns (a: Action)
    requires Inv(env, s) && !AllDone(s)
    ensures Calm(env, s, a)
  {
    if j :| 0 <= j < |s.jobs| && !s.jobs[j].phase.Finished? {
      assert JobOk(env, s.rows, s.used, s.jobs[j]);
      match s.jobs[j].phase {
        case Idle => a := Begin(j);
        case Started =>
          var id := FreshId(s.used);
          a := Resolve(j, [], id, 0);
        case Prepared(_, _) => a := FirstSave(j, 0, Commits);
        case Trying(_, _, _, _) => a := CallProvider(j, Rejected(None), 0);
        case Concluding(_) => a := FinalSave(j, 0, Commits);
      }
    } else if t :| 0 <= t < |s.tasks| && !s.tasks[t].phase.Over? {
      match s.tasks[t].phase {
        case Located => a := Enqueue(t);
        case Waiting => a := Read(t, 0);
        case Judging(_) => a := SaveUpdate(t, 0, Commits);
      }
    } else {
      var w :| 0 <= w < |s.sweeps| && s.sweeps[w] != [];
      a := SweepNext(w);
    }
  }

  // ----- no row is left behind -----

  /** The steps that leave a QUEUED row without an execution: a death after the first save, a first save that
      raises after its commit, a last save that raises before it. */
  predicate Orphans(s: State, a: Action) {
    match a
    case FirstSave(_, _, db) => db.FailsAfterCommit?
    case FinalSave(_, _, db) => db.FailsBeforeCommit?
    case Crash(j) => j < |s.jobs| && (s.jobs[j].phase.Trying? || s.jobs[j].phase.Concluding?)
    case _ => false
  }

  ghost predicate NoOrphans(s: State) {
    forall id :: id in s.rows && s.rows[id].status.Queued? ==> OwnedIn(s.jobs, id)
  }

  lemma OwnerStays(env: Env, s: State, a: Action, id: Id)
    requires Inv(env, s) && Enabled(env, s, a) && !Orphans(s, a)
    requires id in s.rows && s.rows[id].status.Queued? && OwnedIn(s.jobs, id)
    requires Apply(env, s, a).rows[id].status.Queued?
    ensures OwnedIn(Apply(env, s, a).jobs, id)
  {
    var j: nat :| j < |s.jobs| && Owned(s.jobs[j]) == Some(id);
    assert JobOk(env, s.rows, s.used, s.jobs[j]);
    if Concerns(s, a, id) {
      SoleOwner(env, s, a, id);
      OwnerKeepsQueued(env, s, a, id);
    } else {
      OthersKeepOwners(env, s, a, id);
      assert Apply(env, s, a).jobs[j] == s.jobs[j];
    }
  }

  lemma OwnerKeepsQueued(env: Env, s: State, a: Action, id: Id)
    requires Inv(env, s) && Enabled(env, s, a) && !Orphans(s, a) && Concerns(s, a, id)
    requires id in s.rows && id in Apply(env, s, a).rows && Apply(env, s, a).rows[id].status.Queued?
    requires a.FirstSave? || a.CallProvider? || a.FinalSave? || a.Crash? ==> Owned(s.jobs[a.j]) == Some(id)
    ensures OwnedIn(Apply(env, s, a).jobs, id)
  {
    assert JobOk(env, s.rows, s.used, s.jobs[a.j]);
    assert Owned(Apply(env, s, a).jobs[a.j]) == Some(id);
  }

  lemma StepKeepsOwners(env: Env, s: State, a: Action)
    requires Inv(env, s) && Enabled(env, s, a) && !Orphans(s, a) && NoOrphans(s)
    ensures NoOrphans(Apply(env, s, a))
  {
    var s' := Apply(env, s, a);
    forall id | id in s'.rows && s'.rows[id].status.Queued?
      ensures OwnedIn(s'.jobs, id)
    {
      if id in s.rows {
        StepEvolves(env, s, a, id);
        OwnerStays(env, s, a, id);
      } else {
        assert Owned(s'.jobs[a.j]) == Some(id);
      }
    }
  }

  ghost predicate OrphanFree(env: Env, s: State, acts: seq<Action>)
    requires Run(env, s, acts)
    decreases |acts|
  {
    acts == [] || (!Orphans(s, acts[0]) && OrphanFree(env, Apply(env, s, acts[0]), acts[1..]))
  }

  lemma {:induction false} RunKeepsOwners(env: Env, s: State, acts: seq<Action>)
    requires Inv(env, s) && Run(env, s, acts) && OrphanFree(env, s, acts) && NoOrphans(s)
    ensures NoOrphans(After(env, s, acts))
    decreases |acts|
  {
    if acts == [] {
    } else {
      StepKeepsOwners(env, s, acts[0]);
      StepKeepsInv(env, s, acts[0]);
      RunKeepsOwners(env, Apply(env, s, acts[0]), acts[1..]);
    }
  }

  ghost predicate AtRest(env: Env, s: State) {
    forall a :: !Calm(env, s, a)
  }

  /** The run makes calm steps as long as it can. */
  ghost predicate Maximal(env: Env, run: nat -> State) {
    forall i: nat :: CalmTo(env, run(i), run(i + 1)) || (AtRest(env, run(i)) && run(i + 1) == run(i))
  }

  lemma {:induction false} CalmRunKeeps(env: Env, run: nat -> State, n: nat)
    requires Maximal(env, run) && Inv(env, run(0)) && NoOrphans(run(0))
    ensures Inv(env, run(n)) && NoOrphans(run(n))
  {
    if n > 0 {
      CalmRunKeeps(env, run, n - 1);
      if CalmTo(env, run(n - 1), run(n - 1 + 1)) {
        var a :| Calm(env, run(n - 1), a) && Apply(env, run(n - 1), a) == run(n);
        StepKeepsInv(env, run(n - 1), a);
        StepKeepsOwners(env, run(n - 1), a);
      }
    }
  }

  ghost predicate NothingStuck(s: State) {
    AllDone(s) && forall id :: id in s.rows ==> !s.rows[id].status.Pending? && !s.rows[id].status.Queued?
  }

  /** After any history in which no execution was orphaned, every maximal calm run finishes all work, and then
      no row is PENDING or QUEUED, whether providers accepted, refused or raised. */
  lemma CalmRunsQuiesce(env: Env, acts: seq<Action>, run: nat -> State)
    requires Run(env, Initial(), acts) && OrphanFree(env, Initial(), acts)
    requires run(0) == After(env, Initial(), acts) && Maximal(env, run)
    ensures exists n: nat :: NothingStuck(run(n))
  {
    RunKeepsInv(env, Initial(), acts);
    RunKeepsOwners(env, Initial(), acts);
    var n := CalmRunEnds(env, run, 0);
    CalmRunKeeps(env, run, n);
    var s := run(n);
    assert AtRest(env, s);
    if !AllDone(s) {
      var a := UnfinishedCanStep(env, s);
      assert false;
    }
    forall id | id in s.rows
      ensures !s.rows[id].status.Pending? && !s.rows[id].status.Queued?
    {
      assert RowOk(env, s.rows[id]);
      assert !OwnedIn(s.jobs, id);
    }
    assert NothingStuck(s);
  }
}
