/** The whole system as interleaved steps: every await, save and enqueue of the dispatch task, of the webhook views
    and their task and of the sweep is one step, and a worker may die between any two of them. */
module Protocol {
  import opened Wrappers
  import opened Notifications
  import opened Templates
  import opened Providers
  import opened Repository
  import opened SendNotification
  import opened Webhooks
  import opened QueueTasks

  /** The active templates, and every provider that is ever configured or registered. */
  datatype Env = Env(templates: map<string, Template>, known: set<Provider>)

  /** Where the worker is in an execution; `Idle` is a message nobody holds, `Finished` one that is acknowledged,
      `sent` when its last execution saved SENT. */
  datatype Phase =
    | Idle
    | Started
    | Prepared(e: Entity, plan: Plan)
    | Trying(e: Entity, plan: Plan, index: nat, error: string)
    | Concluding(e: Entity)
    | Finished(sent: bool)

  /** A dispatch message with its delivery state. */
  datatype Job = Job(payload: Payload, retries: nat, phase: Phase)

  datatype TaskPhase = Located | Waiting | Judging(e: Entity) | Over

  /** A delivery update: found by a view, enqueued, read and judged, saved. */
  datatype Task = Task(update: Update, retries: nat, phase: TaskPhase)

  /** History: a provider reported success for a row. */
  datatype Accept = Accept(id: Id, provider: string, job: nat)

  /** History: an execution died or raised after a provider had reported success, with or without saving it. */
  datatype Death = Death(id: Id, job: nat, saved: bool)

  datatype State = State(
    rows: Table,
    jobs: seq<Job>,
    tasks: seq<Task>,
    sweeps: seq<seq<Entity>>,
    used: set<Id>,
    log: seq<Accept>,
    deaths: seq<Death>)

  function Initial(): State {
    State(map[], [], [], [], {}, [], [])
  }

  datatype Action =
    | Submit(payload: Payload)
    | Begin(j: nat)
    | Resolve(j: nat, registry: seq<Provider>, id: Id, now: Time)
    | LookupRaises(j: nat)
    | FirstSave(j: nat, now: Time, db: Db)
    | CallProvider(j: nat, vendor: Outcome, now: Time)
    | FinalSave(j: nat, now: Time, db: Db)
    | Crash(j: nat)
    | Locate(messageId: string, id: Id, delivered: bool, reason: Option<string>)
    | Enqueue(t: nat)
    | Read(t: nat, now: Time)
    | ReadRaises(t: nat)
    | SaveUpdate(t: nat, now: Time, db: Db)
    | TaskCrash(t: nat, redelivered: bool)
    | Query(ids: seq<Id>)
    | SweepNext(w: nat)
    | SweepCrash(w: nat)

  const SWEEP_LIMIT: nat := 100

  ghost predicate Enabled(env: Env, s: State, a: Action) {
    match a
    case Submit(_) => true
    case Begin(j) => j < |s.jobs| && s.jobs[j].phase.Idle?
    case Resolve(j, registry, id, _) =>
      j < |s.jobs| && s.jobs[j].phase.Started? && id !in s.used && forall p :: p in registry ==> p in env.known
    case LookupRaises(j) => j < |s.jobs| && s.jobs[j].phase.Started?
    case FirstSave(j, _, _) => j < |s.jobs| && s.jobs[j].phase.Prepared?
    case CallProvider(j, _, _) =>
      j < |s.jobs| && s.jobs[j].phase.Trying? && s.jobs[j].phase.index < |s.jobs[j].phase.plan.candidates|
    case FinalSave(j, _, _) => j < |s.jobs| && s.jobs[j].phase.Concluding?
    case Crash(j) => j < |s.jobs| && !s.jobs[j].phase.Idle? && !s.jobs[j].phase.Finished?
    case Locate(messageId, id, _, _) => Matches(s.rows, Some(messageId)) == {id}
    case Enqueue(t) => t < |s.tasks| && s.tasks[t].phase.Located?
    case Read(t, _) => t < |s.tasks| && s.tasks[t].phase.Waiting?
    case ReadRaises(t) => t < |s.tasks| && s.tasks[t].phase.Waiting?
    case SaveUpdate(t, _, _) => t < |s.tasks| && s.tasks[t].phase.Judging?
    case TaskCrash(t, redelivered) =>
      t < |s.tasks| && !s.tasks[t].phase.Over? && (s.tasks[t].phase.Located? ==> !redelivered)
    case Query(ids) => IsOldest(s.rows, ids, SWEEP_LIMIT)
    case SweepNext(w) => w < |s.sweeps| && s.sweeps[w] != []
    case SweepCrash(w) => w < |s.sweeps|
  }

  function WithPhase(s: State, j: nat, phase: Phase): State
    requires j < |s.jobs|
  {
    s.(jobs := s.jobs[j := s.jobs[j].(phase := phase)])
  }

  /** Celery's retry of an execution that raised. */
  function Retried(job: Job): Job {
    match AfterRaise(job.retries)
    case RetryAs(n) => job.(retries := n, phase := Idle)
    case _ => job.(phase := Finished(false))
  }

  function Raise(s: State, j: nat): State
    requires j < |s.jobs|
  {
    s.(jobs := s.jobs[j := Retried(s.jobs[j])])
  }

  /** The history of deaths when the execution of `j` ends here without being acknowledged. */
  function Bury(s: State, j: nat, saved: bool): seq<Death>
    requires j < |s.jobs|
  {
    var phase := s.jobs[j].phase;
    if phase.Concluding? && phase.e.status.Sent? then s.deaths + [Death(phase.e.id, j, saved)] else s.deaths
  }

  function AfterCall(s: State, j: nat, vendor: Outcome, now: Time): State
    requires j < |s.jobs| && s.jobs[j].phase.Trying? && s.jobs[j].phase.index < |s.jobs[j].phase.plan.candidates|
  {
    var Trying(e, plan, index, _) := s.jobs[j].phase;
    var provider := plan.candidates[index];
    var o := SendWithTemplate(provider, plan.template, vendor);
    if o.Accepted? then
      WithPhase(s, j, Concluding(e.Send(provider.name, o.externalId, now))).(log := s.log + [Accept(e.id, provider.name, j)])
    else if index + 1 < |plan.candidates| then
      WithPhase(s, j, Trying(e, plan, index + 1, ErrorOf(o)))
    else
      WithPhase(s, j, Concluding(e.Fail(ErrorOf(o))))
  }

  function WithTask(s: State, t: nat, task: Task): State
    requires t < |s.tasks|
  {
    s.(tasks := s.tasks[t := task])
  }

  function RetriedTask(task: Task): Task {
    match AfterRaise(task.retries)
    case RetryAs(n) => task.(retries := n, phase := Waiting)
    case _ => task.(phase := Over)
  }

  function AfterRead(s: State, t: nat, now: Time): State
    requires t < |s.tasks|
  {
    var task := s.tasks[t];
    var e := Load(s.rows, task.update.id);
    if e.None? || e.value.IsTerminal() then WithTask(s, t, task.(phase := Over))
    else WithTask(s, t, task.(phase := Judging(Judge(e.value, task.update, now))))
  }

  ghost function Apply(env: Env, s: State, a: Action): State
    requires Enabled(env, s, a)
  {
    match a
    case Submit(payload) => s.(jobs := s.jobs + [Job(payload, 0, Idle)])
    case Begin(j) => WithPhase(s, j, Started)
    case Resolve(j, registry, id, now) =>
      (match MakePlan(env.templates, registry, s.jobs[j].payload)
       case Failure(_) => Raise(s, j)
       case Success(plan) => WithPhase(s, j, Prepared(QueuedEntity(id, plan.dto, now), plan)).(used := s.used + {id}))
    case LookupRaises(j) => Raise(s, j)
    case FirstSave(j, now, db) =>
      var Prepared(e, plan) := s.jobs[j].phase;
      var s1 := s.(rows := StoreWith(s.rows, e, now, db));
      if db.Commits? then WithPhase(s1, j, Trying(e, plan, 0, UNKNOWN_ERROR)) else Raise(s1, j)
    case CallProvider(j, vendor, now) => AfterCall(s, j, vendor, now)
    case FinalSave(j, now, db) =>
      var s1 := s.(rows := StoreWith(s.rows, s.jobs[j].phase.e, now, db));
      if db.Commits? then WithPhase(s1, j, Finished(s.jobs[j].phase.e.status.Sent?))
      else Raise(s1, j).(deaths := Bury(s, j, db.FailsAfterCommit?))
    case Crash(j) => WithPhase(s, j, Idle).(deaths := Bury(s, j, false))
    case Locate(_, id, delivered, reason) => s.(tasks := s.tasks + [Task(Update(id, delivered, reason), 0, Located)])
    case Enqueue(t) => WithTask(s, t, s.tasks[t].(phase := Waiting))
    case Read(t, now) => AfterRead(s, t, now)
    case ReadRaises(t) => WithTask(s, t, RetriedTask(s.tasks[t]))
    case SaveUpdate(t, now, db) =>
      var task := s.tasks[t];
      var s1 := s.(rows := StoreWith(s.rows, task.phase.e, now, db));
      WithTask(s1, t, if db.Commits? then task.(phase := Over) else RetriedTask(task))
    case TaskCrash(t, redelivered) => WithTask(s, t, s.tasks[t].(phase := if redelivered then Waiting else Over))
    case Query(ids) => s.(sweeps := s.sweeps + [Entities(s.rows, ids)])
    case SweepNext(w) =>
      var e := s.sweeps[w][0];
      var s1 := s.(sweeps := s.sweeps[w := s.sweeps[w][1..]]);
      if e.CanRetry() then s1.(jobs := s.jobs + [Job(SweepPayload(e), 0, Idle)]) else s1
    case SweepCrash(w) => s.(sweeps := s.sweeps[w := []])
  }

  ghost predicate Run(env: Env, s: State, acts: seq<Action>)
    decreases |acts|
  {
    acts == [] || (Enabled(env, s, acts[0]) && Run(env, Apply(env, s, acts[0]), acts[1..]))
  }

  ghost function After(env: Env, s: State, acts: seq<Action>): State
    requires Run(env, s, acts)
    decreases |acts|
  {
    if acts == [] then s else After(env, Apply(env, s, acts[0]), acts[1..])
  }

  ghost predicate Reachable(env: Env, s: State) {
    exists acts :: Run(env, Initial(), acts) && After(env, Initial(), acts) == s
  }

  lemma {:induction false} RunAppend(env: Env, s: State, a: seq<Action>, b: seq<Action>)
    requires Run(env, s, a) && Run(env, After(env, s, a), b)
    ensures Run(env, s, a + b) && After(env, s, a + b) == After(env, After(env, s, a), b)
    decreases |a|
  {
    if a == [] {
      assert a + b == b;
    } else {
      assert (a + b)[1..] == a[1..] + b;
      RunAppend(env, Apply(env, s, a[0]), a[1..], b);
    }
  }

  lemma RunOne(env: Env, s: State, a: Action)
    requires Enabled(env, s, a)
    ensures Run(env, s, [a]) && After(env, s, [a]) == Apply(env, s, a)
  {
  }

  lemma RunThen(env: Env, s: State, acts: seq<Action>, a: Action)
    requires Run(env, s, acts) && Enabled(env, After(env, s, acts), a)
    ensures Run(env, s, acts + [a]) && After(env, s, acts + [a]) == Apply(env, After(env, s, acts), a)
  {
    RunOne(env, After(env, s, acts), a);
    RunAppend(env, s, acts, [a]);
  }

  lemma ReachableRun(env: Env, s: State, acts: seq<Action>)
    requires Reachable(env, s) && Run(env, s, acts)
    ensures Reachable(env, After(env, s, acts))
  {
    var before :| Run(env, Initial(), before) && After(env, Initial(), before) == s;
    RunAppend(env, Initial(), before, acts);
  }

  lemma FreshId(used: set<Id>) returns (id: Id)
    ensures id !in used
  {
    id := 0;
    var left := used;
    while id in used
      invariant left == set x | x in used && x >= id
      decreases left
    {
      assert id in left;
      left := left - {id};
      id := id + 1;
    }
  }
}
