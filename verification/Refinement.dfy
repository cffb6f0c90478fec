/** The imperative methods, run undisturbed, do what a sequence of steps of the protocol does. */
module Refinement {
  import opened Wrappers
  import opened Notifications
  import opened Providers
  import opened Repository
  import opened SendNotification
  import opened Webhooks
  import opened Protocol
  import opened Consistency
  import opened Evolution
  import opened Accounting
  import opened Sweeps
  import Text

  // ----- the dispatch task -----

  /** The whole effect of one delivery of message `j`, in one go: the table is what `DispatchNotification` leaves,
      and the message is acknowledged, redelivered or given up as it says. */
  ghost function Dispatched(env: Env, s: State, j: nat, registry: seq<Provider>, chance: Chance): State
    requires j < |s.jobs|
  {
    match MakePlan(env.templates, registry, s.jobs[j].payload)
    case Failure(_) => Raise(s, j)
    case Success(plan) =>
      var rows := Executed(s.rows, plan, chance);
      var v := Fallback(plan.template, plan.candidates, chance.vendor, 0, UNKNOWN_ERROR);
      var s1 := s.(rows := rows, used := s.used + {chance.id});
      if !chance.first.Commits? then Raise(s1, j)
      else
        var s2 := if v.SentBy? then s1.(log := s.log + [Accept(chance.id, plan.candidates[v.index].name, j)]) else s1;
        if chance.last.Commits? then WithPhase(s2, j, Finished(v.SentBy?))
        else
          Raise(s2, j).(deaths :=
            if v.SentBy? then s.deaths + [Death(chance.id, j, chance.last.FailsAfterCommit?)] else s.deaths)
  }

  predicate IsDispatchAction(a: Action) {
    a.Begin? || a.Resolve? || a.FirstSave? || a.CallProvider? || a.FinalSave?
  }

  /** The time an action reads from a clock. */
  function Clock(a: Action): Option<Time> {
    match a
    case Resolve(_, _, _, now) => Some(now)
    case FirstSave(_, now, _) => Some(now)
    case CallProvider(_, _, now) => Some(now)
    case FinalSave(_, now, _) => Some(now)
    case Read(_, now) => Some(now)
    case SaveUpdate(_, now, _) => Some(now)
    case _ => None
  }

  /** A step of a dispatch whose database and clock behave as `chance` says. */
  predicate StepOf(a: Action, chance: Chance) {
    && IsDispatchAction(a)
    && (a.FirstSave? ==> a.db == chance.first) && (a.FinalSave? ==> a.db == chance.last)
    && (Clock(a).Some? ==> Clock(a).value in {chance.createdAt, chance.now, chance.sentAt})
  }

  lemma {:induction false} CallsRealised(env: Env, s: State, j: nat, vendor: nat -> Outcome, now: Time) returns (acts: seq<Action>)
    requires j < |s.jobs| && s.jobs[j].phase.Trying? && s.jobs[j].phase.index < |s.jobs[j].phase.plan.candidates|
    ensures Run(env, s, acts) && forall a :: a in acts ==> a.CallProvider? && a.now == now
    ensures
      var Trying(e, plan, index, error) := s.jobs[j].phase;
      var v := Fallback(plan.template, plan.candidates, vendor, index, error);
      After(env, s, acts) == WithPhase(s, j, Concluding(Conclude(e, plan.candidates, v, now))).(
        log := if v.SentBy? then s.log + [Accept(e.id, plan.candidates[v.index].name, j)] else s.log)
    decreases |s.jobs[j].phase.plan.candidates| - s.jobs[j].phase.index
  {
    var Trying(e, plan, index, error) := s.jobs[j].phase;
    var a := CallProvider(j, vendor(index), now);
    var s1 := Apply(env, s, a);
    RunOne(env, s, a);
    if s1.jobs[j].phase.Trying? {
      var rest := CallsRealised(env, s1, j, vendor, now);
      acts := [a] + rest;
      RunAppend(env, s, [a], rest);
      assert s1.jobs[j := After(env, s, acts).jobs[j]] == s.jobs[j := After(env, s, acts).jobs[j]];
    } else {
      acts := [a];
    }
  }

  lemma StartRealised(env: Env, s: State, j: nat, registry: seq<Provider>, chance: Chance) returns (acts: seq<Action>)
    requires j < |s.jobs| && s.jobs[j].phase.Idle? && chance.id !in s.used
    requires forall p :: p in registry ==> p in env.known
    ensures Run(env, s, acts) && forall a :: a in acts ==> StepOf(a, chance)
    ensures match MakePlan(env.templates, registry, s.jobs[j].payload)
      case Failure(_) => After(env, s, acts) == Raise(s, j)
      case Success(plan) =>
        var e := QueuedEntity(chance.id, plan.dto, chance.createdAt);
        var s1 := s.(rows := StoreWith(s.rows, e, chance.now, chance.first), used := s.used + {chance.id});
        After(env, s, acts) ==
          if chance.first.Commits? then WithPhase(s1, j, Trying(e, plan, 0, UNKNOWN_ERROR)) else Raise(s1, j)
  {
    var begin, resolve := Begin(j), Resolve(j, registry, chance.id, chance.createdAt);
    RunOne(env, s, begin);
    var s1 := Apply(env, s, begin);
    RunOne(env, s1, resolve);
    RunAppend(env, s, [begin], [resolve]);
    var s2 := Apply(env, s1, resolve);
    acts := [begin] + [resolve];
    match MakePlan(env.templates, registry, s.jobs[j].payload) {
      case Failure(_) =>
        assert s2.jobs == Raise(s, j).jobs;
      case Success(plan) =>
        var save := FirstSave(j, chance.now, chance.first);
        RunOne(env, s2, save);
        RunAppend(env, s, acts, [save]);
        acts := acts + [save];
        var s3 := Apply(env, s2, save);
        assert s3.jobs == s.jobs[j := s3.jobs[j]];
    }
  }

  /** From the first call to the last save. */
  lemma RestRealised(env: Env, s: State, j: nat, chance: Chance) returns (acts: seq<Action>)
    requires j < |s.jobs| && s.jobs[j].phase.Trying? && s.jobs[j].phase.index < |s.jobs[j].phase.plan.candidates|
    ensures Run(env, s, acts) && forall a :: a in acts ==> StepOf(a, chance)
    ensures
      var Trying(e, plan, index, error) := s.jobs[j].phase;
      var v := Fallback(plan.template, plan.candidates, chance.vendor, index, error);
      var final := Conclude(e, plan.candidates, v, chance.sentAt);
      var s1 := s.(
        rows := StoreWith(s.rows, final, chance.now, chance.last),
        log := if v.SentBy? then s.log + [Accept(e.id, plan.candidates[v.index].name, j)] else s.log);
      After(env, s, acts) ==
        if chance.last.Commits? then WithPhase(s1, j, Finished(final.status.Sent?))
        else Raise(s1, j).(deaths :=
          if final.status.Sent? then s.deaths + [Death(e.id, j, chance.last.FailsAfterCommit?)] else s.deaths)
  {
    var calls := CallsRealised(env, s, j, chance.vendor, chance.sentAt);
    var s1 := After(env, s, calls);
    var save := FinalSave(j, chance.now, chance.last);
    RunOne(env, s1, save);
    RunAppend(env, s, calls, [save]);
    acts := calls + [save];
    assert Apply(env, s1, save).jobs == s.jobs[j := Apply(env, s1, save).jobs[j]];
  }

  /** Every undisturbed dispatch is a run of steps. */
  lemma DispatchRealised(env: Env, s: State, j: nat, registry: seq<Provider>, chance: Chance) returns (acts: seq<Action>)
    requires j < |s.jobs| && s.jobs[j].phase.Idle? && chance.id !in s.used
    requires forall p :: p in registry ==> p in env.known
    ensures Run(env, s, acts) && forall a :: a in acts ==> StepOf(a, chance)
    ensures After(env, s, acts) == Dispatched(env, s, j, registry, chance)
  {
    acts := StartRealised(env, s, j, registry, chance);
    var s1 := After(env, s, acts);
    if s1.jobs[j].phase.Trying? {
      var rest := RestRealised(env, s1, j, chance);
      RunAppend(env, s, acts, rest);
      acts := acts + rest;
      var s2 := After(env, s, acts);
      assert s2.jobs == s.jobs[j := s2.jobs[j]];
    }
  }

  // ----- the webhook task -----

  /** Every undisturbed delivery of an update is a run of steps; the table is what `ProcessDeliveryUpdate` leaves. */
  lemma UpdateRealised(env: Env, s: State, t: nat, now: Time, db: Db) returns (acts: seq<Action>)
    requires t < |s.tasks| && s.tasks[t].phase.Waiting?
    ensures Run(env, s, acts)
    ensures
      var e := Load(s.rows, s.tasks[t].update.id);
      var over := e.None? || e.value.IsTerminal() || db.Commits?;
      After(env, s, acts) ==
        WithTask(s, t, if over then s.tasks[t].(phase := Over) else RetriedTask(s.tasks[t])).(
          rows := Process(s.rows, s.tasks[t].update, now, db))
  {
    RunOne(env, s, Read(t, now));
    acts := [Read(t, now)];
    var s1 := Apply(env, s, acts[0]);
    if s1.tasks[t].phase.Judging? {
      RunOne(env, s1, SaveUpdate(t, now, db));
      RunAppend(env, s, acts, [SaveUpdate(t, now, db)]);
      acts := acts + [SaveUpdate(t, now, db)];
    }
  }

  // ----- the views -----

  /** A view that finds the one row of a message id and enqueues an update makes two steps. */
  lemma ReportRealised(env: Env, s: State, messageId: string, u: Update) returns (acts: seq<Action>)
    requires Matches(s.rows, Some(messageId)) == {u.id}
    ensures Run(env, s, acts) && After(env, s, acts) == s.(tasks := s.tasks + [Task(u, 0, Waiting)])
  {
    acts := [Locate(messageId, u.id, u.delivered, u.reason)];
    RunOne(env, s, acts[0]);
    RunThen(env, s, acts, Enqueue(|s.tasks|));
    acts := acts + [Enqueue(|s.tasks|)];
  }

  function TasksFor(updates: seq<Update>): seq<Task> {
    seq(|updates|, k requires 0 <= k < |updates| => Task(updates[k], 0, Waiting))
  }

  /** The updates `PostSendGrid` enqueues for the events it handles are those of a run of steps. */
  lemma {:induction false} BatchRealised(env: Env, s: State, events: seq<SendGridEvent>) returns (acts: seq<Action>)
    ensures Run(env, s, acts)
    ensures After(env, s, acts) == s.(tasks := s.tasks + TasksFor(Enqueued(s.rows, events)))
  {
    if events == [] {
      acts := [];
      assert s.tasks + TasksFor([]) == s.tasks;
    } else {
      var n := |events| - 1;
      acts := BatchRealised(env, s, events[..n]);
      var before := Enqueued(s.rows, events[..n]);
      var r := EventResultIn(s.rows, events[n]);
      if r.Enqueues? {
        var more := ReportRealised(env, After(env, s, acts), StrippedId(events[n]), r.u);
        RunAppend(env, s, acts, more);
        acts := acts + more;
        assert s.tasks + TasksFor(before + [r.u]) == (s.tasks + TasksFor(before)) + [Task(r.u, 0, Waiting)];
      }
    }
  }

  // ----- one request, many messages -----

  /** The first candidate can handle the template's mode. */
  predicate CanSend(plan: Plan) {
    plan.candidates != [] && (plan.template.mode.Local? || plan.candidates[0].external)
  }

  /** What the sweep resubmits can be dispatched whenever the original could, with the default attempts. */
  lemma ResubmissionPlans(env: Env, registry: seq<Provider>, p: Payload)
    requires MakePlan(env.templates, registry, p).Success?
    ensures
      var plan := MakePlan(env.templates, registry, p).value;
      MakePlan(env.templates, registry, Payload(plan.dto.request, None))
        == Success(plan.(dto := Dto(plan.dto.request, DEFAULT_MAX_ATTEMPTS)))
  {
    Text.StripTwice(p.request.recipient);
  }

  /** The only RETRYING row is `id`, the one of the request. */
  ghost predicate StillWaiting(env: Env, s: State, request: Request, id: Id) {
    && RetryingIds(s.rows) == {id} && s.rows[id].request == request && s.rows[id].attempts < s.rows[id].maxAttempts
    && s.rows.Keys <= s.used
  }

  /** A step of the sweep or of a dispatch, without crash or database failure. */
  predicate Untroubled(a: Action) {
    a.Query? || a.SweepNext? || (IsDispatchAction(a) && (a.FirstSave? || a.FinalSave? ==> a.db.Commits?))
  }

  /** The request, submitted once, fails once: its row waits for the sweep. */
  lemma FirstAttemptFails(env: Env, registry: seq<Provider>, p: Payload) returns (acts: seq<Action>)
    requires forall q :: q in registry ==> q in env.known
    requires MakePlan(env.templates, registry, p).Success?
    requires MakePlan(env.templates, registry, p).value.dto.maxAttempts > 1
    ensures Run(env, Initial(), acts) && |acts| > 0 && acts[0] == Submit(p)
    ensures forall a :: a in acts[1..] ==> Untroubled(a)
    ensures StillWaiting(env, After(env, Initial(), acts), MakePlan(env.templates, registry, p).value.dto.request, 0)
    ensures After(env, Initial(), acts).log == []
  {
    var plan := MakePlan(env.templates, registry, p).value;
    RunOne(env, Initial(), Submit(p));
    var s1 := Apply(env, Initial(), Submit(p));
    var chance := Chance(0, 0, 0, 0, Commits, Commits, _ => Rejected(None));
    var rest := DispatchRealised(env, s1, 0, registry, chance);
    RunAppend(env, Initial(), [Submit(p)], rest);
    acts := [Submit(p)] + rest;
    assert acts[1..] == rest;
    FallbackStopsAtFirst(plan.template, plan.candidates, chance.vendor, 0, UNKNOWN_ERROR);
    FailedDispatch(map[], plan, chance);
    assert RetryingIds(After(env, Initial(), acts).rows) == {0};
  }

  lemma FailedDispatch(rows: Table, plan: Plan, chance: Chance)
    requires chance.first.Commits? && chance.last.Commits? && chance.id !in rows
    requires Fallback(plan.template, plan.candidates, chance.vendor, 0, UNKNOWN_ERROR).Exhausted?
    requires plan.dto.maxAttempts > 1
    ensures var rows' := Executed(rows, plan, chance);
      && rows' == rows[chance.id := rows'[chance.id]] && rows'[chance.id].status.Retrying?
      && rows'[chance.id].request == plan.dto.request && rows'[chance.id].attempts == 1
      && rows'[chance.id].maxAttempts == plan.dto.maxAttempts
  {
  }

  lemma SuccessfulDispatch(rows: Table, plan: Plan, chance: Chance, externalId: Option<string>)
    requires chance.first.Commits? && chance.last.Commits? && chance.id !in rows && CanSend(plan)
    requires chance.vendor(0) == Accepted(externalId)
    ensures Fallback(plan.template, plan.candidates, chance.vendor, 0, UNKNOWN_ERROR) == SentBy(0, externalId)
    ensures var rows' := Executed(rows, plan, chance);
      && rows' == rows[chance.id := rows'[chance.id]]
      && rows'[chance.id].status.Sent? && rows'[chance.id].messageId == externalId
  {
  }

  /** One sweep re-enqueues the request. */
  lemma SweptAlone(env: Env, s: State, request: Request, id: Id) returns (acts: seq<Action>)
    requires StillWaiting(env, s, request, id)
    ensures Run(env, s, acts) && forall a :: a in acts ==> Untroubled(a)
    ensures After(env, s, acts) == s.(jobs := s.jobs + [Job(Payload(request, None), 0, Idle)], sweeps := s.sweeps + [[]])
  {
    var query, next := Query([id]), SweepNext(|s.sweeps|);
    assert IsOldest(s.rows, [id], SWEEP_LIMIT);
    RunOne(env, s, query);
    var s1 := Apply(env, s, query);
    RunThen(env, s, [query], next);
    acts := [query] + [next];
    assert s1.sweeps == s.sweeps + [[ToEntity(id, s.rows[id])]] by {
      assert Entities(s.rows, [id]) == [ToEntity(id, s.rows[id])];
    }
    var s2 := Apply(env, s1, next);
    assert s1.sweeps[|s.sweeps|][1..] == [];
    assert s2.sweeps == s1.sweeps[|s.sweeps| := []] == s.sweeps + [[]];
    assert s2.jobs == s.jobs + [Job(Payload(request, None), 0, Idle)];
  }

  /** One sweep re-enqueues it, a provider accepts it, and the old row still waits. */
  lemma SweptAndSent(env: Env, s: State, registry: seq<Provider>, plan: Plan, id: Id) returns (acts: seq<Action>)
    requires StillWaiting(env, s, plan.dto.request, id)
    requires forall q :: q in registry ==> q in env.known
    requires MakePlan(env.templates, registry, Payload(plan.dto.request, None)) == Success(plan) && CanSend(plan)
    ensures Run(env, s, acts) && forall a :: a in acts ==> Untroubled(a)
    ensures StillWaiting(env, After(env, s, acts), plan.dto.request, id)
    ensures |After(env, s, acts).log| == |s.log| + 1
  {
    var sweep := SweptAlone(env, s, plan.dto.request, id);
    var freshId := FreshId(s.used);
    var chance := Chance(freshId, 0, 0, 0, Commits, Commits, _ => Accepted(None));
    var rest := DispatchRealised(env, After(env, s, sweep), |s.jobs|, registry, chance);
    RunAppend(env, s, sweep, rest);
    acts := sweep + rest;
    SuccessfulDispatch(s.rows, plan, chance, None);
    assert RetryingIds(After(env, s, acts).rows) == {id};
  }

  /** Delivery at most once per request does not hold in general. Take any request that can be dispatched and has more than one
      attempt: without any crash or failure it can be accepted by providers any number of times after its first attempt
      failed, because its RETRYING row is never taken off the sweep's list. */
  lemma {:induction false} OneRequestManySends(env: Env, registry: seq<Provider>, p: Payload, n: nat) returns (acts: seq<Action>)
    requires forall q :: q in registry ==> q in env.known
    requires MakePlan(env.templates, registry, p).Success?
    requires var plan := MakePlan(env.templates, registry, p).value; plan.dto.maxAttempts > 1 && CanSend(plan)
    ensures Run(env, Initial(), acts) && |acts| > 0 && acts[0] == Submit(p)
    ensures forall a :: a in acts[1..] ==> Untroubled(a)
    ensures StillWaiting(env, After(env, Initial(), acts), MakePlan(env.templates, registry, p).value.dto.request, 0)
    ensures |After(env, Initial(), acts).log| == n
  {
    if n == 0 {
      acts := FirstAttemptFails(env, registry, p);
    } else {
      ResubmissionPlans(env, registry, p);
      var plan := MakePlan(env.templates, registry, p).value;
      var again := plan.(dto := Dto(plan.dto.request, DEFAULT_MAX_ATTEMPTS));
      var before := OneRequestManySends(env, registry, p, n - 1);
      var more := SweptAndSent(env, After(env, Initial(), before), registry, again, 0);
      RunAppend(env, Initial(), before, more);
      acts := before + more;
      assert acts[1..] == before[1..] + more;
    }
  }

  /** The execution's entity, if it has one, has a single attempt. */
  predicate SingleAttempt(job: Job) {
    match job.phase
    case Prepared(e, plan) => e.maxAttempts == 1
    case Trying(e, plan, _, _) => e.maxAttempts == 1
    case Concluding(e) => e.maxAttempts == 1
    case _ => true
  }

  /** One message without a second attempt: no row can wait for a sweep, and the message is sent only while it is over
      or about to be. */
  ghost predicate OneShot(env: Env, s: State, p: Payload) {
    && Inv(env, s) && |s.jobs| == 1 && s.jobs[0].payload == p && SingleAttempt(s.jobs[0])
    && (forall id :: id in s.rows ==> s.rows[id].maxAttempts == 1)
    && (forall w :: 0 <= w < |s.sweeps| ==> s.sweeps[w] == [])
    && |s.log| == One(SentNow(s.jobs[0]))
  }

  /** No other request, no worker dies during the dispatch, and its last save does not raise. */
  predicate SendsOnce(a: Action) {
    !a.Submit? && !a.Crash? && (a.FinalSave? ==> a.db.Commits?)
  }

  /** Only the first save of an execution makes a row. */
  lemma RowsComeFromFirstSaves(env: Env, s: State, a: Action, id: Id)
    requires Inv(env, s) && Enabled(env, s, a) && id !in s.rows && id in Apply(env, s, a).rows
    ensures a.FirstSave? && Apply(env, s, a).rows[id].maxAttempts == s.jobs[a.j].phase.e.maxAttempts
  {
  }

  lemma OneShotRows(env: Env, s: State, a: Action, p: Payload)
    requires OneShot(env, s, p) && Enabled(env, s, a)
    ensures forall id :: id in Apply(env, s, a).rows ==> Apply(env, s, a).rows[id].maxAttempts == 1
  {
    forall id | id in Apply(env, s, a).rows
      ensures Apply(env, s, a).rows[id].maxAttempts == 1
    {
      if id in s.rows {
        StepEvolves(env, s, a, id);
      } else {
        RowsComeFromFirstSaves(env, s, a, id);
      }
    }
  }

  lemma NothingToSweep(env: Env, s: State, p: Payload)
    requires OneShot(env, s, p)
    ensures RetryingIds(s.rows) == {}
  {
    forall id | id in s.rows
      ensures !s.rows[id].status.Retrying?
    {
      assert RowOk(env, s.rows[id]);
    }
  }

  lemma SoleMessageStays(env: Env, s: State, a: Action)
    requires Enabled(env, s, a) && SendsOnce(a) && |s.jobs| == 1 && RetryingIds(s.rows) == {}
    requires forall w :: 0 <= w < |s.sweeps| ==> s.sweeps[w] == []
    ensures var s' := Apply(env, s, a);
      && |s'.jobs| == 1 && s'.jobs[0].payload == s.jobs[0].payload && s'.deaths == s.deaths
      && forall w :: 0 <= w < |s'.sweeps| ==> s'.sweeps[w] == []
  {
  }

  lemma SingleAttemptStays(env: Env, s: State, a: Action, j: nat)
    requires Enabled(env, s, a) && j < |s.jobs| && SingleAttempt(s.jobs[j]) && s.jobs[j].payload.maxAttempts == Some(1)
    ensures j < |Apply(env, s, a).jobs| && SingleAttempt(Apply(env, s, a).jobs[j])
  {
  }

  lemma OneShotLog(env: Env, s: State, a: Action)
    requires Enabled(env, s, a) && SendsOnce(a) && |s.jobs| == 1 && |s.log| == One(SentNow(s.jobs[0]))
    requires |Apply(env, s, a).jobs| == 1 && Apply(env, s, a).deaths == s.deaths
    ensures |Apply(env, s, a).log| == One(SentNow(Apply(env, s, a).jobs[0]))
  {
    HistoryStep(env, s, a);
    SentNowStep(env, s, a, 0);
    assert SentAt(s.jobs, 0) == SentNow(s.jobs[0]);
    assert a.CallProvider? ==> !SentNow(s.jobs[0]);
  }

  lemma OneShotStep(env: Env, s: State, a: Action, p: Payload)
    requires OneShot(env, s, p) && p.maxAttempts == Some(1) && Enabled(env, s, a) && SendsOnce(a)
    ensures OneShot(env, Apply(env, s, a), p)
  {
    StepKeepsInv(env, s, a);
    OneShotRows(env, s, a, p);
    NothingToSweep(env, s, p);
    SoleMessageStays(env, s, a);
    SingleAttemptStays(env, s, a, 0);
    OneShotLog(env, s, a);
  }

  lemma {:induction false} OneShotRun(env: Env, s: State, acts: seq<Action>, p: Payload)
    requires OneShot(env, s, p) && p.maxAttempts == Some(1)
    requires Run(env, s, acts) && forall a :: a in acts ==> SendsOnce(a)
    ensures OneShot(env, After(env, s, acts), p)
    decreases |acts|
  {
    if acts == [] {
    } else {
      OneShotStep(env, s, acts[0], p);
      OneShotRun(env, Apply(env, s, acts[0]), acts[1..], p);
    }
  }

  /** In every run of the request on its own that takes only such steps, providers accept it at most once. */
  ghost predicate AcceptedAtMostOnce(env: Env, p: Payload, steps: Action -> bool) {
    forall acts :: Run(env, Initial(), acts) && acts != [] && acts[0] == Submit(p) && (forall a :: a in acts[1..] ==> steps(a)) ==>
      |After(env, Initial(), acts).log| <= 1
  }

  /** When delivery at most once does hold. Take any request that can be dispatched, and any kind of steps that covers
      sweeps and dispatches without trouble and excludes the known reasons to send again (another request, a death during
      the dispatch, a last save that raises): it holds exactly when the request allows a single attempt. */
  lemma AcceptedAtMostOnceIff(env: Env, registry: seq<Provider>, p: Payload, steps: Action -> bool)
    requires forall q :: q in registry ==> q in env.known
    requires MakePlan(env.templates, registry, p).Success? && CanSend(MakePlan(env.templates, registry, p).value)
    requires forall a :: (Untroubled(a) ==> steps(a)) && (steps(a) ==> SendsOnce(a))
    ensures AcceptedAtMostOnce(env, p, steps) <==> MakePlan(env.templates, registry, p).value.dto.maxAttempts == 1
  {
    if MakePlan(env.templates, registry, p).value.dto.maxAttempts == 1 {
      forall acts | Run(env, Initial(), acts) && acts != [] && acts[0] == Submit(p) && (forall a :: a in acts[1..] ==> steps(a))
        ensures |After(env, Initial(), acts).log| <= 1
      {
        var s1 := Apply(env, Initial(), Submit(p));
        StepKeepsInv(env, Initial(), Submit(p));
        assert OneShot(env, s1, p);
        OneShotRun(env, s1, acts[1..], p);
      }
    } else {
      var acts := OneRequestManySends(env, registry, p, 2);
      assert |After(env, Initial(), acts).log| == 2;
    }
  }

  // ----- a row that waits for good -----

  /** `n` rows wait for the sweep, one per request, created one after the other. */
  ghost predicate Crowd(s: State, n: nat) {
    && s.used == s.rows.Keys && |s.jobs| == n
    && (forall id: Id :: id in s.rows <==> id < n)
    && (forall id: Id :: id in s.rows ==> s.rows[id].status.Retrying? && s.rows[id].createdAt == id)
  }

  /** The clock moves forward along the run, and has not passed `time`. */
  ghost predicate ClockMovesForward(acts: seq<Action>, time: Time) {
    && (forall i :: 0 <= i < |acts| && Clock(acts[i]).Some? ==> Clock(acts[i]).value <= time)
    && (forall i, j :: 0 <= i < j < |acts| && Clock(acts[i]).Some? && Clock(acts[j]).Some? ==>
          Clock(acts[i]).value <= Clock(acts[j]).value)
  }

  lemma ClockAppend(acts: seq<Action>, more: seq<Action>, time: Time, later: Time)
    requires ClockMovesForward(acts, time) && time <= later
    requires forall a :: a in more && Clock(a).Some? ==> Clock(a).value == later
    ensures ClockMovesForward(acts + more, later)
  {
  }

  /** Once more the request, refused by every provider at time `n`. */
  lemma OneMoreWaits(env: Env, s: State, registry: seq<Provider>, p: Payload, n: nat) returns (acts: seq<Action>)
    requires forall q :: q in registry ==> q in env.known
    requires MakePlan(env.templates, registry, p).Success?
    requires MakePlan(env.templates, registry, p).value.dto.maxAttempts > 1
    requires Crowd(s, n)
    ensures Run(env, s, acts) && Crowd(After(env, s, acts), n + 1)
    ensures forall a :: a in acts ==> (a == Submit(p) || Untroubled(a)) && (Clock(a).Some? ==> Clock(a).value == n)
  {
    var plan := MakePlan(env.templates, registry, p).value;
    var chance := Chance(n, n, n, n, Commits, Commits, _ => Rejected(None));
    RunOne(env, s, Submit(p));
    var rest := DispatchRealised(env, Apply(env, s, Submit(p)), n, registry, chance);
    RunAppend(env, s, [Submit(p)], rest);
    acts := [Submit(p)] + rest;
    FallbackStopsAtFirst(plan.template, plan.candidates, chance.vendor, 0, UNKNOWN_ERROR);
    FailedDispatch(s.rows, plan, chance);
    CrowdGrows(s, After(env, s, acts), n, plan, chance);
  }

  lemma CrowdGrows(s: State, s': State, n: nat, plan: Plan, chance: Chance)
    requires Crowd(s, n) && chance.id == n && chance.now == n && chance.first.Commits? && chance.last.Commits?
    requires s'.rows == Executed(s.rows, plan, chance) == s.rows[n := s'.rows[n]] && s'.rows[n].status.Retrying?
    requires s'.used == s.used + {n} && |s'.jobs| == n + 1
    ensures Crowd(s', n + 1)
  {
    assert s'.rows[n].createdAt == n;
  }

  /** The same request submitted `n` times, every provider refusing. */
  lemma {:induction false} CrowdForms(env: Env, registry: seq<Provider>, p: Payload, n: nat) returns (acts: seq<Action>)
    requires forall q :: q in registry ==> q in env.known
    requires MakePlan(env.templates, registry, p).Success?
    requires MakePlan(env.templates, registry, p).value.dto.maxAttempts > 1
    ensures Run(env, Initial(), acts) && Crowd(After(env, Initial(), acts), n) && ClockMovesForward(acts, n)
    ensures forall a :: a in acts ==> a == Submit(p) || Untroubled(a)
  {
    if n == 0 {
      acts := [];
    } else {
      var before := CrowdForms(env, registry, p, n - 1);
      var more := OneMoreWaits(env, After(env, Initial(), before), registry, p, n - 1);
      RunAppend(env, Initial(), before, more);
      ClockAppend(before, more, n - 1, n - 1);
      acts := before + more;
    }
  }

  /** Starvation is reached from the empty system without crash or failure, by a clock that only moves forward:
      any request with more than one attempt, submitted 101 times while providers refuse, leaves a RETRYING row
      that no sweep of any later run picks. */
  lemma StarvedRowExists(env: Env, registry: seq<Provider>, p: Payload) returns (acts: seq<Action>, id: Id)
    requires forall q :: q in registry ==> q in env.known
    requires MakePlan(env.templates, registry, p).Success?
    requires MakePlan(env.templates, registry, p).value.dto.maxAttempts > 1
    ensures Run(env, Initial(), acts) && ClockMovesForward(acts, SWEEP_LIMIT + 1)
    ensures forall a :: a in acts ==> a == Submit(p) || Untroubled(a)
    ensures var s := After(env, Initial(), acts);
      && id in RetryingIds(s.rows) && |RetryingBefore(s.rows, s.rows[id].createdAt)| == SWEEP_LIMIT
      && NeverPicked(env, s, id)
  {
    acts := CrowdForms(env, registry, p, SWEEP_LIMIT + 1);
    id := SWEEP_LIMIT;
    var s := After(env, Initial(), acts);
    OlderThanLast(s, SWEEP_LIMIT);
    NeverPickedIff(env, s, id);
  }

  lemma OlderThanLast(s: State, n: nat)
    requires Crowd(s, n + 1)
    ensures n in RetryingIds(s.rows) && |RetryingBefore(s.rows, s.rows[n].createdAt)| == n
  {
    var ids := seq(n, (i: nat) => i);
    DistinctSize(ids);
    forall id: Id
      ensures id in RetryingBefore(s.rows, s.rows[n].createdAt) <==> id in Elements(ids)
    {
      assert id < n ==> ids[id] == id;
    }
    assert RetryingBefore(s.rows, s.rows[n].createdAt) == Elements(ids);
  }

  // ----- one message, sent twice -----

  lemma {:induction false} FinishedStays(env: Env, s: State, acts: seq<Action>, j: nat)
    requires Run(env, s, acts) && j < |s.jobs| && s.jobs[j].phase.Finished?
    ensures AcceptsOf(After(env, s, acts).log, j) == AcceptsOf(s.log, j)
    decreases |acts|
  {
    if acts == [] {
    } else {
      FinishedStep(env, s, acts[0], j);
      FinishedStays(env, Apply(env, s, acts[0]), acts[1..], j);
    }
  }

  lemma FinishedStep(env: Env, s: State, a: Action, j: nat)
    requires Enabled(env, s, a) && j < |s.jobs| && s.jobs[j].phase.Finished?
    ensures var s' := Apply(env, s, a);
      j < |s'.jobs| && s'.jobs[j] == s.jobs[j] && AcceptsOf(s'.log, j) == AcceptsOf(s.log, j)
  {
    HistoryStep(env, s, a);
    if a.CallProvider? {
      AcceptsAppend(s.log, Accept(s.jobs[a.j].phase.e.id, "", a.j), j);
      if Apply(env, s, a).log != s.log {
        AcceptsAppend(s.log, Apply(env, s, a).log[|s.log|], j);
      }
    }
  }

  /** A provider accepts, the worker dies before the final save, and the message is back in the queue. */
  lemma AcceptedThenCrashes(env: Env, s: State, j: nat, registry: seq<Provider>) returns (acts: seq<Action>)
    requires j < |s.jobs| && s.jobs[j].phase.Idle? && forall p :: p in registry ==> p in env.known
    requires MakePlan(env.templates, registry, s.jobs[j].payload).Success?
    requires CanSend(MakePlan(env.templates, registry, s.jobs[j].payload).value)
    ensures Run(env, s, acts)
    ensures var s' := After(env, s, acts);
      && j < |s'.jobs| && s'.jobs[j] == s.jobs[j] && AcceptsOf(s'.log, j) == AcceptsOf(s.log, j) + 1
  {
    var id := FreshId(s.used + s.rows.Keys);
    var chance := Chance(id, 0, 0, 0, Commits, Commits, _ => Accepted(None));
    var start := StartRealised(env, s, j, registry, chance);
    var s1 := After(env, s, start);
    SuccessfulDispatch(s.rows, s1.jobs[j].phase.plan, chance, None);
    var calls := CallsRealised(env, s1, j, chance.vendor, 0);
    RunAppend(env, s, start, calls);
    RunThen(env, s, start + calls, Crash(j));
    acts := start + calls + [Crash(j)];
    AcceptsAppend(s.log, After(env, s1, calls).log[|s.log|], j);
  }

  ghost predicate NeverSentTwice(env: Env, s: State, j: nat) {
    forall acts :: Run(env, s, acts) ==> AcceptsOf(After(env, s, acts).log, j) <= 1
  }

  /** Late acknowledgement is described as safe on worker crashes. Take a message that can be dispatched at all: no run
      sends it twice exactly when it has been acknowledged or given up and was not sent twice before. */
  lemma NeverSentTwiceIff(env: Env, s: State, j: nat, registry: seq<Provider>)
    requires j < |s.jobs| && forall p :: p in registry ==> p in env.known
    requires MakePlan(env.templates, registry, s.jobs[j].payload).Success?
    requires CanSend(MakePlan(env.templates, registry, s.jobs[j].payload).value)
    ensures NeverSentTwice(env, s, j) <==> s.jobs[j].phase.Finished? && AcceptsOf(s.log, j) <= 1
  {
    if s.jobs[j].phase.Finished? {
      assert Run(env, s, []) && After(env, s, []) == s;
      forall acts | Run(env, s, acts)
        ensures AcceptsOf(After(env, s, acts).log, j) == AcceptsOf(s.log, j)
      {
        FinishedStays(env, s, acts, j);
      }
    } else {
      var back := [];
      assert Run(env, s, back) && After(env, s, back) == s;
      if !s.jobs[j].phase.Idle? {
        back := [Crash(j)];
        RunOne(env, s, Crash(j));
      }
      var s1 := After(env, s, back);
      var first := AcceptedThenCrashes(env, s1, j, registry);
      var second := AcceptedThenCrashes(env, After(env, s1, first), j, registry);
      RunAppend(env, s1, first, second);
      RunAppend(env, s, back, first + second);
      assert AcceptsOf(After(env, s, back + (first + second)).log, j) >= 2;
    }
  }

  // ----- one row, two verdicts -----

  /** From the empty system: any request that can be dispatched can end with its row DELIVERED
      and then, with no further report, DELIVERY_FAILED. */
  lemma RequestCanFlip(env: Env, registry: seq<Provider>, p: Payload, messageId: string)
    returns (acts: seq<Action>, more: seq<Action>)
    requires forall q :: q in registry ==> q in env.known
    requires MakePlan(env.templates, registry, p).Success? && CanSend(MakePlan(env.templates, registry, p).value)
    ensures Run(env, Initial(), acts) && Run(env, Initial(), acts + more) && forall a :: a in more ==> !a.Locate?
    ensures 0 in After(env, Initial(), acts).rows && After(env, Initial(), acts).rows[0].status.Delivered?
    ensures 0 in After(env, Initial(), acts + more).rows && After(env, Initial(), acts + more).rows[0].status.DeliveryFailed?
  {
    var plan := MakePlan(env.templates, registry, p).value;
    RunOne(env, Initial(), Submit(p));
    var s1 := Apply(env, Initial(), Submit(p));
    var chance := Chance(0, 0, 0, 0, Commits, Commits, _ => Accepted(Some(messageId)));
    var dispatch := DispatchRealised(env, s1, 0, registry, chance);
    RunAppend(env, Initial(), [Submit(p)], dispatch);
    SuccessfulDispatch(map[], plan, chance, Some(messageId));
    var s2 := After(env, s1, dispatch);
    assert Matches(s2.rows, Some(messageId)) == {0};
    var flip, back := VerdictCanFlip(env, s2, 0, messageId);
    RunAppend(env, Initial(), [Submit(p)] + dispatch, flip);
    RunAppend(env, Initial(), [Submit(p)] + dispatch, flip + back);
    acts, more := [Submit(p)] + dispatch + flip, back;
    assert acts + more == [Submit(p)] + dispatch + (flip + back);
  }
}
