/** What every reachable state of every interleaving satisfies. */
module Consistency {
  import opened Wrappers
  import opened Notifications
  import opened Providers
  import opened Repository
  import opened SendNotification
  import opened Webhooks
  import opened Protocol

  predicate Reported(status: Status) {
    status.Sent? || status.Delivered? || status.DeliveryFailed?
  }

  /** A known provider of this name supports the channel, and handles the template's mode. */
  ghost predicate ProvidedBy(env: Env, request: Request, name: string) {
    exists p :: p in env.known && p.name == name && p.Supports(request.channel)
      && request.templateId in env.templates
      && (env.templates[request.templateId].mode.External? ==> p.external)
  }

  ghost predicate RowOk(env: Env, r: Row) {
    && !r.status.Pending?
    && (r.providerUsed.Some? <==> Reported(r.status))
    && (r.sentAt.Some? <==> Reported(r.status))
    && (r.messageId.Some? ==> r.providerUsed.Some?)
    && (r.errorDetail.Some? <==> r.status.Retrying? || r.status.Failed? || r.status.DeliveryFailed?)
    && r.attempts == (if r.status.Retrying? || r.status.Failed? then 1 else 0)
    && 1 <= r.maxAttempts <= 5
    && (r.status.Retrying? ==> r.attempts < r.maxAttempts)
    && (r.status.Failed? ==> r.attempts == r.maxAttempts)
    && r.deliveredAt.None?
    && (r.providerUsed.Some? ==> ProvidedBy(env, r.request, r.providerUsed.value))
  }

  ghost predicate PlanOk(env: Env, e: Entity, plan: Plan) {
    && e == QueuedEntity(e.id, plan.dto, e.createdAt)
    && 1 <= plan.dto.maxAttempts <= 5
    && plan.dto.request.templateId in env.templates
    && plan.template == env.templates[plan.dto.request.templateId]
    && plan.candidates != []
    && forall i :: 0 <= i < |plan.candidates| ==>
         plan.candidates[i] in env.known && plan.candidates[i].Supports(plan.dto.request.channel)
  }

  /** The execution is about to turn the QUEUED row into an outcome. */
  ghost predicate OutcomeOk(env: Env, row: Row, e: Entity) {
    && row.status.Queued? && row.request == e.request && row.maxAttempts == e.maxAttempts
    && (e.status.Sent? || e.status.Retrying? || e.status.Failed?)
    && RowOk(env, RowOf(e, row.createdAt, None))
  }

  ghost predicate JobOk(env: Env, rows: Table, used: set<Id>, job: Job) {
    match job.phase
    case Prepared(e, plan) => PlanOk(env, e, plan) && e.id in used && e.id !in rows
    case Trying(e, plan, index, _) =>
      && PlanOk(env, e, plan) && index < |plan.candidates|
      && e.id in rows && rows[e.id] == RowOf(e, rows[e.id].createdAt, None)
    case Concluding(e) => e.id in rows && OutcomeOk(env, rows[e.id], e)
    case _ => true
  }

  /** The row an execution in flight works on. */
  function Owned(job: Job): Option<Id> {
    match job.phase
    case Prepared(e, _) => Some(e.id)
    case Trying(e, _, _, _) => Some(e.id)
    case Concluding(e) => Some(e.id)
    case _ => None
  }

  predicate OwnedIn(jobs: seq<Job>, id: Id) {
    exists j :: 0 <= j < |jobs| && Owned(jobs[j]) == Some(id)
  }

  /** A reported row as its dispatch left it. */
  function AsSent(r: Row): Row {
    r.(status := Sent, errorDetail := None)
  }

  /** A held copy, however stale, is the verdict on the SENT row. */
  ghost predicate TaskOk(rows: Table, task: Task) {
    !task.phase.Over? ==>
      && task.update.id in rows && Reported(rows[task.update.id].status)
      && (task.phase.Judging? ==>
            var e := task.phase.e;
            var row := rows[task.update.id];
            e.id == task.update.id && RowOf(e, row.createdAt, None) == Judged(AsSent(row), task.update))
  }

  ghost predicate PendingOk(rows: Table, pending: seq<Entity>) {
    forall k :: 0 <= k < |pending| ==>
      && pending[k].id in rows && rows[pending[k].id].status.Retrying?
      && pending[k] == ToEntity(pending[k].id, rows[pending[k].id])
  }

  ghost predicate RowsOk(env: Env, rows: Table, used: set<Id>) {
    forall id :: id in rows ==> id in used && RowOk(env, rows[id])
  }

  ghost predicate JobsOk(env: Env, rows: Table, used: set<Id>, jobs: seq<Job>) {
    forall j :: 0 <= j < |jobs| ==> JobOk(env, rows, used, jobs[j])
  }

  ghost predicate OwnersDistinct(jobs: seq<Job>) {
    forall i, j :: 0 <= i < j < |jobs| && Owned(jobs[i]).Some? ==> Owned(jobs[i]) != Owned(jobs[j])
  }

  ghost predicate TasksOk(rows: Table, tasks: seq<Task>) {
    forall t :: 0 <= t < |tasks| ==> TaskOk(rows, tasks[t])
  }

  ghost predicate SweepsOk(rows: Table, sweeps: seq<seq<Entity>>) {
    forall w :: 0 <= w < |sweeps| ==> PendingOk(rows, sweeps[w])
  }

  ghost predicate Inv(env: Env, s: State) {
    && RowsOk(env, s.rows, s.used)
    && JobsOk(env, s.rows, s.used, s.jobs)
    && OwnersDistinct(s.jobs)
    && TasksOk(s.rows, s.tasks)
    && SweepsOk(s.rows, s.sweeps)
  }

  /** What one step may do to the table. */
  ghost predicate RowEvolves(r: Row, r': Row) {
    || r' == r
    || (r.status.Queued? && r'.request == r.request && r'.maxAttempts == r.maxAttempts && r'.createdAt == r.createdAt
        && (r'.status.Sent? || r'.status.Retrying? || r'.status.Failed?))
    || (Reported(r.status) && AsSent(r') == AsSent(r) && (r'.status.Delivered? || r'.status.DeliveryFailed?))
  }

  /** One row written, which no execution but `j` works on. */
  lemma JobsSurvive(env: Env, s: State, rows': Table, id: Id, j: int)
    requires Inv(env, s)
    requires id in rows' && rows' == s.rows[id := rows'[id]]
    requires forall i :: 0 <= i < |s.jobs| && i != j ==> Owned(s.jobs[i]) != Some(id)
    ensures forall i :: 0 <= i < |s.jobs| && i != j ==> JobOk(env, rows', s.used, s.jobs[i])
  {
  }

  /** One row written that no task, or only its own verdicts, may concern. */
  lemma TasksSurvive(s: State, rows': Table, id: Id)
    requires TasksOk(s.rows, s.tasks) && id in rows' && rows' == s.rows[id := rows'[id]]
    requires id in s.rows && Reported(s.rows[id].status) ==>
      Reported(rows'[id].status) && AsSent(rows'[id]) == AsSent(s.rows[id])
    ensures TasksOk(rows', s.tasks)
  {
  }

  lemma SweepsSurvive(s: State, rows': Table, id: Id)
    requires SweepsOk(s.rows, s.sweeps) && id in rows' && rows' == s.rows[id := rows'[id]]
    requires id in s.rows ==> !s.rows[id].status.Retrying?
    ensures SweepsOk(rows', s.sweeps)
  {
  }

  /** A save by execution `j`: the row it owns is written and its phase changes. */
  lemma SaveStep(env: Env, s: State, j: nat, job: Job, rows': Table, id: Id)
    requires Inv(env, s) && j < |s.jobs| && Owned(s.jobs[j]) == Some(id) && (Owned(job).None? || Owned(job) == Some(id))
    requires id in rows' && rows' == s.rows[id := rows'[id]] && (id in s.rows ==> s.rows[id].status.Queued?)
    requires id in s.used && RowOk(env, rows'[id]) && JobOk(env, rows', s.used, job)
    ensures Inv(env, s.(rows := rows', jobs := s.jobs[j := job]))
  {
  }

  lemma PlanMade(env: Env, registry: seq<Provider>, p: Payload, id: Id, now: Time)
    requires forall q :: q in registry ==> q in env.known
    requires MakePlan(env.templates, registry, p).Success?
    ensures var plan := MakePlan(env.templates, registry, p).value;
      PlanOk(env, QueuedEntity(id, plan.dto, now), plan)
  {
  }

  /** Steps that change only the phase of one job. */
  lemma JobStep(env: Env, s: State, j: nat, job: Job, used: set<Id>)
    requires Inv(env, s) && j < |s.jobs| && s.used <= used
    requires JobOk(env, s.rows, used, job)
    requires Owned(job).Some? ==> Owned(job) == Owned(s.jobs[j]) || Owned(job).value !in s.used
    ensures Inv(env, s.(jobs := s.jobs[j := job], used := used))
  {
  }

  lemma NewJob(env: Env, s: State, p: Payload)
    requires Inv(env, s)
    ensures Inv(env, s.(jobs := s.jobs + [Job(p, 0, Idle)]))
  {
  }

  lemma CallKeepsInv(env: Env, s: State, j: nat, vendor: Outcome, now: Time)
    requires Inv(env, s) && Enabled(env, s, CallProvider(j, vendor, now))
    ensures Inv(env, AfterCall(s, j, vendor, now))
  {
    var Trying(e, plan, index, _) := s.jobs[j].phase;
    var provider := plan.candidates[index];
    var o := SendWithTemplate(provider, plan.template, vendor);
    var phase := AfterCall(s, j, vendor, now).jobs[j].phase;
    if o.Accepted? {
      assert ProvidedBy(env, e.request, provider.name);
    }
    JobStep(env, s, j, s.jobs[j].(phase := phase), s.used);
  }

  lemma FirstSaveKeepsInv(env: Env, s: State, j: nat, now: Time, db: Db)
    requires Inv(env, s) && Enabled(env, s, FirstSave(j, now, db))
    ensures Inv(env, Apply(env, s, FirstSave(j, now, db)))
  {
    var Prepared(e, plan) := s.jobs[j].phase;
    var s' := Apply(env, s, FirstSave(j, now, db));
    assert JobOk(env, s.rows, s.used, s.jobs[j]);
    if db.FailsBeforeCommit? {
      JobStep(env, s, j, Retried(s.jobs[j]), s.used);
    } else {
      SaveStep(env, s, j, s'.jobs[j], s'.rows, e.id);
    }
  }

  lemma FinalSaveKeepsInv(env: Env, s: State, j: nat, now: Time, db: Db)
    requires Inv(env, s) && Enabled(env, s, FinalSave(j, now, db))
    ensures Inv(env, Apply(env, s, FinalSave(j, now, db)))
  {
    var e := s.jobs[j].phase.e;
    var s' := Apply(env, s, FinalSave(j, now, db));
    assert JobOk(env, s.rows, s.used, s.jobs[j]);
    if db.FailsBeforeCommit? {
      JobStep(env, s, j, Retried(s.jobs[j]), s.used);
    } else {
      assert s'.rows[e.id] == RowOf(e, s.rows[e.id].createdAt, None);
      SaveStep(env, s, j, s'.jobs[j], s'.rows, e.id);
    }
  }

  lemma TaskStep(env: Env, s: State, t: nat, task: Task)
    requires Inv(env, s) && t < |s.tasks| && TaskOk(s.rows, task)
    ensures Inv(env, WithTask(s, t, task))
  {
  }

  lemma ReadKeepsInv(env: Env, s: State, t: nat, now: Time)
    requires Inv(env, s) && Enabled(env, s, Read(t, now))
    ensures Inv(env, AfterRead(s, t, now))
  {
  }

  lemma NobodyOwnsReported(env: Env, s: State, id: Id)
    requires Inv(env, s) && id in s.rows && Reported(s.rows[id].status)
    ensures forall j :: 0 <= j < |s.jobs| ==> Owned(s.jobs[j]) != Some(id)
  {
  }

  lemma SaveUpdateKeepsInv(env: Env, s: State, t: nat, now: Time, db: Db)
    requires Inv(env, s) && Enabled(env, s, SaveUpdate(t, now, db))
    ensures Inv(env, Apply(env, s, SaveUpdate(t, now, db)))
  {
    var task := s.tasks[t];
    var id := task.update.id;
    var s' := Apply(env, s, SaveUpdate(t, now, db));
    if db.FailsBeforeCommit? {
      TaskStep(env, s, t, RetriedTask(task));
    } else {
      assert TaskOk(s.rows, task);
      assert s'.rows[id] == Judged(AsSent(s.rows[id]), task.update);
      NobodyOwnsReported(env, s, id);
      JobsSurvive(env, s, s'.rows, id, -1);
      TasksSurvive(s, s'.rows, id);
      SweepsSurvive(s, s'.rows, id);
    }
  }

  lemma SweepKeepsInv(env: Env, s: State, w: nat)
    requires Inv(env, s) && w < |s.sweeps| && s.sweeps[w] != []
    ensures Inv(env, Apply(env, s, SweepNext(w)))
  {
  }

  lemma StepKeepsInv(env: Env, s: State, a: Action)
    requires Inv(env, s) && Enabled(env, s, a)
    ensures Inv(env, Apply(env, s, a))
  {
    match a {
      case Submit(payload) => NewJob(env, s, payload);
      case Begin(j) => JobStep(env, s, j, s.jobs[j].(phase := Started), s.used);
      case Resolve(j, registry, id, now) =>
        var planned := MakePlan(env.templates, registry, s.jobs[j].payload);
        if planned.Success? {
          PlanMade(env, registry, s.jobs[j].payload, id, now);
          var e := QueuedEntity(id, planned.value.dto, now);
          JobStep(env, s, j, s.jobs[j].(phase := Prepared(e, planned.value)), s.used + {id});
        } else {
          JobStep(env, s, j, Retried(s.jobs[j]), s.used);
        }
      case LookupRaises(j) => JobStep(env, s, j, Retried(s.jobs[j]), s.used);
      case FirstSave(j, now, db) => FirstSaveKeepsInv(env, s, j, now, db);
      case CallProvider(j, vendor, now) => CallKeepsInv(env, s, j, vendor, now);
      case FinalSave(j, now, db) => FinalSaveKeepsInv(env, s, j, now, db);
      case Crash(j) => JobStep(env, s, j, s.jobs[j].(phase := Idle), s.used);
      case Locate(messageId, id, _, _) => assert id in Matches(s.rows, Some(messageId));
      case Enqueue(t) => TaskStep(env, s, t, s.tasks[t].(phase := Waiting));
      case Read(t, now) => ReadKeepsInv(env, s, t, now);
      case ReadRaises(t) => TaskStep(env, s, t, RetriedTask(s.tasks[t]));
      case SaveUpdate(t, now, db) => SaveUpdateKeepsInv(env, s, t, now, db);
      case TaskCrash(t, redelivered) =>
        TaskStep(env, s, t, s.tasks[t].(phase := if redelivered then Waiting else Over));
      case Query(ids) =>
      case SweepNext(w) => SweepKeepsInv(env, s, w);
      case SweepCrash(w) =>
    }
  }

  lemma {:induction false} RunKeepsInv(env: Env, s: State, acts: seq<Action>)
    requires Inv(env, s) && Run(env, s, acts)
    ensures Inv(env, After(env, s, acts))
    decreases |acts|
  {
    if acts == [] {
    } else {
      StepKeepsInv(env, s, acts[0]);
      RunKeepsInv(env, Apply(env, s, acts[0]), acts[1..]);
    }
  }

  lemma ReachableInv(env: Env, s: State)
    requires Reachable(env, s)
    ensures Inv(env, s)
  {
    var acts :| Run(env, Initial(), acts) && After(env, Initial(), acts) == s;
    RunKeepsInv(env, Initial(), acts);
  }
}
