/** What a row may become over whole runs: frames, terminal absorption, final verdicts and stuck rows. */
module Evolution {
  import opened Wrappers
  import opened Notifications
  import opened Providers
  import opened Repository
  import opened SendNotification
  import opened Webhooks
  import opened Protocol
  import opened Consistency

  // ----- rows over runs -----

  /** No step ever changes what was asked for, an outcome of RETRYING or FAILED, the columns a dispatch wrote
      for a reported row, or a verdict back to SENT. */
  ghost predicate Evolution(r: Row, r': Row) {
    && r'.request == r.request && r'.maxAttempts == r.maxAttempts && r'.createdAt == r.createdAt
    && (r.status.Retrying? || r.status.Failed? ==> r' == r)
    && (Reported(r.status) ==> AsSent(r') == AsSent(r) && Reported(r'.status))
    && (Reported(r.status) && r'.status.Sent? ==> r' == r)
  }

  lemma StepEvolves(env: Env, s: State, a: Action, id: Id)
    requires Inv(env, s) && Enabled(env, s, a) && id in s.rows
    ensures id in Apply(env, s, a).rows && RowEvolves(s.rows[id], Apply(env, s, a).rows[id])
  {
    if a.FinalSave? && s.jobs[a.j].phase.e.id == id {
      assert JobOk(env, s.rows, s.used, s.jobs[a.j]);
    } else if a.SaveUpdate? && s.tasks[a.t].update.id == id {
      assert TaskOk(s.rows, s.tasks[a.t]);
    } else {
      RowUntouched(env, s, a, id);
    }
  }

  /** Only a save of the row itself changes it: the one of its execution, or of a task that judged it. */
  lemma RowUntouched(env: Env, s: State, a: Action, id: Id)
    requires Inv(env, s) && Enabled(env, s, a) && id in s.rows
    requires a.FinalSave? ==> Owned(s.jobs[a.j]) != Some(id) || !s.rows[id].status.Queued?
    requires a.SaveUpdate? ==> s.tasks[a.t].update.id != id
    ensures id in Apply(env, s, a).rows && Apply(env, s, a).rows[id] == s.rows[id]
  {
  }

  /** Whatever the interleaving, crashes and stale copies included. */
  lemma {:induction false} RunEvolves(env: Env, s: State, acts: seq<Action>, id: Id)
    requires Inv(env, s) && Run(env, s, acts) && id in s.rows
    ensures id in After(env, s, acts).rows && Evolution(s.rows[id], After(env, s, acts).rows[id])
    decreases |acts|
  {
    if acts == [] {
    } else {
      StepEvolves(env, s, acts[0], id);
      StepKeepsInv(env, s, acts[0]);
      RunEvolves(env, Apply(env, s, acts[0]), acts[1..], id);
    }
  }

  lemma TerminalIsForever(env: Env, s: State, acts: seq<Action>, id: Id)
    requires Reachable(env, s) && Run(env, s, acts) && id in s.rows && Terminal(s.rows[id].status)
    ensures id in After(env, s, acts).rows
    ensures Terminal(After(env, s, acts).rows[id].status)
    ensures s.rows[id].status.Failed? ==> After(env, s, acts).rows[id] == s.rows[id]
  {
    ReachableInv(env, s);
    RunEvolves(env, s, acts, id);
  }

  // ----- dispatch and webhooks never meet -----

  /** A view or task holding a row's id and an execution working on the row never coexist,
      and a task always reads a row that is SENT or terminal: it is never missing, never in another status. */
  lemma DispatchAndWebhooksNeverMeet(env: Env, s: State, t: nat)
    requires Reachable(env, s) && t < |s.tasks| && !s.tasks[t].phase.Over?
    ensures forall j :: 0 <= j < |s.jobs| ==> Owned(s.jobs[j]) != Some(s.tasks[t].update.id)
    ensures var e := Load(s.rows, s.tasks[t].update.id);
      e.Some? && (e.value.IsTerminal() || e.value.status.Sent?)
  {
    ReachableInv(env, s);
    assert TaskOk(s.rows, s.tasks[t]);
    forall j | 0 <= j < |s.jobs|
      ensures Owned(s.jobs[j]) != Some(s.tasks[t].update.id)
    {
      assert JobOk(env, s.rows, s.used, s.jobs[j]);
    }
  }

  /** A dispatch save writes a new row or the QUEUED row of its own execution, so never over a webhook's result. */
  lemma DispatchWritesOwnRowOnly(env: Env, s: State, a: Action, id: Id)
    requires Reachable(env, s) && Enabled(env, s, a) && (a.FirstSave? || a.FinalSave?)
    requires id in s.rows && Apply(env, s, a).rows[id] != s.rows[id]
    ensures a.FinalSave? && s.rows[id].status.Queued? && Owned(s.jobs[a.j]) == Some(id)
  {
    ReachableInv(env, s);
    assert JobOk(env, s.rows, s.used, s.jobs[a.j]);
  }

  // ----- when is a verdict final? -----

  predicate HasVerdict(row: Row) {
    row.status.Delivered? || row.status.DeliveryFailed?
  }

  /** Every copy of the row still held by a task carries the verdict the row already has. */
  ghost predicate Settled(s: State, id: Id)
    requires id in s.rows
  {
    forall t :: 0 <= t < |s.tasks| && s.tasks[t].phase.Judging? && s.tasks[t].update.id == id ==>
      Judged(AsSent(s.rows[id]), s.tasks[t].update) == s.rows[id]
  }

  /** A held copy was held before, or has just been read from a row without a terminal status. */
  lemma CopiesComeFromReads(env: Env, s: State, a: Action, t: nat)
    requires Enabled(env, s, a) && t < |Apply(env, s, a).tasks| && Apply(env, s, a).tasks[t].phase.Judging?
    ensures t < |s.tasks| && Apply(env, s, a).tasks[t].update == s.tasks[t].update
    ensures s.tasks[t].phase.Judging?
      || (s.tasks[t].update.id in s.rows && !Terminal(s.rows[s.tasks[t].update.id].status))
  {
  }

  lemma SettledStep(env: Env, s: State, a: Action, id: Id)
    requires Inv(env, s) && Enabled(env, s, a) && id in s.rows && HasVerdict(s.rows[id]) && Settled(s, id)
    ensures id in Apply(env, s, a).rows && Apply(env, s, a).rows[id] == s.rows[id] && Settled(Apply(env, s, a), id)
  {
    var s' := Apply(env, s, a);
    if a.SaveUpdate? && s.tasks[a.t].update.id == id {
      assert TaskOk(s.rows, s.tasks[a.t]);
    } else {
      RowUntouched(env, s, a, id);
    }
    forall t | 0 <= t < |s'.tasks| && s'.tasks[t].phase.Judging? && s'.tasks[t].update.id == id
      ensures Judged(AsSent(s'.rows[id]), s'.tasks[t].update) == s'.rows[id]
    {
      CopiesComeFromReads(env, s, a, t);
    }
  }

  lemma {:induction false} SettledRun(env: Env, s: State, acts: seq<Action>, id: Id)
    requires Inv(env, s) && Run(env, s, acts) && id in s.rows && HasVerdict(s.rows[id]) && Settled(s, id)
    ensures id in After(env, s, acts).rows && After(env, s, acts).rows[id] == s.rows[id]
    decreases |acts|
  {
    if acts == [] {
    } else {
      SettledStep(env, s, acts[0], id);
      StepKeepsInv(env, s, acts[0]);
      SettledRun(env, Apply(env, s, acts[0]), acts[1..], id);
    }
  }

  ghost predicate NeverChanges(env: Env, s: State, id: Id)
    requires id in s.rows
  {
    forall acts :: Run(env, s, acts) ==> id in After(env, s, acts).rows && After(env, s, acts).rows[id] == s.rows[id]
  }

  /** The task calls itself idempotent. The recorded verdict and error are final exactly when no task
      still holds a copy that was judged otherwise. */
  lemma VerdictFinalIff(env: Env, s: State, id: Id)
    requires Reachable(env, s) && id in s.rows && HasVerdict(s.rows[id])
    ensures NeverChanges(env, s, id) <==> Settled(s, id)
  {
    ReachableInv(env, s);
    if Settled(s, id) {
      forall acts | Run(env, s, acts)
        ensures id in After(env, s, acts).rows && After(env, s, acts).rows[id] == s.rows[id]
      {
        SettledRun(env, s, acts, id);
      }
    } else {
      var t: nat :| t < |s.tasks| && s.tasks[t].phase.Judging? && s.tasks[t].update.id == id
        && Judged(AsSent(s.rows[id]), s.tasks[t].update) != s.rows[id];
      assert TaskOk(s.rows, s.tasks[t]);
      var acts := [SaveUpdate(t, 0, Commits)];
      assert Run(env, Apply(env, s, acts[0]), acts[1..]);
      assert Run(env, s, acts);
      assert After(env, s, acts) == After(env, Apply(env, s, acts[0]), acts[1..]);
      assert After(env, s, acts).rows[id] != s.rows[id];
    }
  }

  /** A view finds the row, enqueues a report, and a task reads the row: it now holds a copy judged by the report. */
  lemma ReportIsHeld(env: Env, s: State, id: Id, messageId: string, delivered: bool) returns (acts: seq<Action>)
    requires id in s.rows && s.rows[id].status.Sent? && Matches(s.rows, Some(messageId)) == {id}
    ensures Run(env, s, acts)
    ensures
      var u := Update(id, delivered, None);
      After(env, s, acts) == s.(tasks := s.tasks + [Task(u, 0, Judging(Judge(ToEntity(id, s.rows[id]), u, 0)))])
  {
    var t := |s.tasks|;
    RunOne(env, s, Locate(messageId, id, delivered, None));
    acts := [Locate(messageId, id, delivered, None)];
    RunThen(env, s, acts, Enqueue(t));
    acts := acts + [Enqueue(t)];
    RunThen(env, s, acts, Read(t, 0));
    acts := acts + [Read(t, 0)];
    assert After(env, s, acts).tasks[..t] == s.tasks;
  }

  /** Any SENT row whose message id is its own can be recorded DELIVERED and then turned into DELIVERY_FAILED:
      two contrary reports whose tasks both read before either saves. */
  lemma VerdictCanFlip(env: Env, s: State, id: Id, messageId: string) returns (acts: seq<Action>, more: seq<Action>)
    requires id in s.rows && s.rows[id].status.Sent? && Matches(s.rows, Some(messageId)) == {id}
    ensures Run(env, s, acts) && Run(env, s, acts + more) && forall a :: a in more ==> a.SaveUpdate?
    ensures After(env, s, acts).rows == s.rows[id := s.rows[id].(status := Delivered)]
    ensures After(env, s, acts + more).rows ==
      s.rows[id := s.rows[id].(status := DeliveryFailed, errorDetail := Some(DEFAULT_REASON))]
  {
    var t := |s.tasks|;
    var first := ReportIsHeld(env, s, id, messageId, true);
    var second := ReportIsHeld(env, After(env, s, first), id, messageId, false);
    RunAppend(env, s, first, second);
    acts := first + second;
    RunThen(env, s, acts, SaveUpdate(t, 0, Commits));
    acts := acts + [SaveUpdate(t, 0, Commits)];
    RunThen(env, s, acts, SaveUpdate(t + 1, 0, Commits));
    more := [SaveUpdate(t + 1, 0, Commits)];
  }

  /** The task exists and concerns the row. */
  predicate TaskOf(tasks: seq<Task>, t: nat, id: Id) {
    t < |tasks| && tasks[t].update.id == id
  }

  /** The task holds a copy of the row. */
  predicate Holds(tasks: seq<Task>, t: nat, id: Id) {
    TaskOf(tasks, t, id) && tasks[t].phase.Judging?
  }

  /** Tasks on the row are serialised: none reads it while another holds a copy. */
  ghost predicate SerialStep(s: State, a: Action, id: Id) {
    a.Read? && TaskOf(s.tasks, a.t, id) ==>
      forall t: nat :: !Holds(s.tasks, t, id)
  }

  ghost predicate SerialRun(env: Env, s: State, acts: seq<Action>, id: Id)
    requires Run(env, s, acts)
    decreases |acts|
  {
    acts == [] || (SerialStep(s, acts[0], id) && SerialRun(env, Apply(env, s, acts[0]), acts[1..], id))
  }

  /** At most one task holds a copy of the row, and only while the row is SENT. */
  ghost predicate Serial(s: State, id: Id) {
    && (forall t: nat :: Holds(s.tasks, t, id) ==> id in s.rows && s.rows[id].status.Sent?)
    && (forall t: nat, t': nat :: Holds(s.tasks, t, id) && Holds(s.tasks, t', id) ==> t == t')
  }

  /** Where the copies of a row are after a step: where they were, or with the task that has just read it. */
  lemma HeldCopies(env: Env, s: State, a: Action, t: nat, id: Id)
    requires Inv(env, s) && Enabled(env, s, a)
    requires Holds(Apply(env, s, a).tasks, t, id)
    ensures TaskOf(s.tasks, t, id) && !(a.SaveUpdate? && a.t == t)
    ensures Holds(s.tasks, t, id) || (a == Read(t, a.now) && id in s.rows && s.rows[id].status.Sent?)
  {
    CopiesComeFromReads(env, s, a, t);
    if a.Read? && a.t == t {
      assert TaskOk(s.rows, s.tasks[t]);
    }
  }

  lemma SerialStepKeeps(env: Env, s: State, a: Action, id: Id)
    requires Inv(env, s) && Enabled(env, s, a) && Serial(s, id) && SerialStep(s, a, id)
    ensures Serial(Apply(env, s, a), id)
  {
    var s' := Apply(env, s, a);
    forall t: nat | Holds(s'.tasks, t, id)
      ensures id in s'.rows && s'.rows[id].status.Sent?
    {
      HeldCopies(env, s, a, t, id);
      assert a.SaveUpdate? && TaskOf(s.tasks, a.t, id) ==> Holds(s.tasks, a.t, id);
      RowUntouched(env, s, a, id);
    }
    forall t: nat, t': nat | Holds(s'.tasks, t, id) && Holds(s'.tasks, t', id)
      ensures t == t'
    {
      HeldCopies(env, s, a, t, id);
      HeldCopies(env, s, a, t', id);
    }
  }

  lemma {:induction false} SerialRunKeeps(env: Env, s: State, acts: seq<Action>, id: Id)
    requires Inv(env, s) && Run(env, s, acts) && Serial(s, id) && SerialRun(env, s, acts, id)
    ensures Serial(After(env, s, acts), id)
    decreases |acts|
  {
    if acts == [] {
    } else {
      SerialStepKeeps(env, s, acts[0], id);
      StepKeepsInv(env, s, acts[0]);
      SerialRunKeeps(env, Apply(env, s, acts[0]), acts[1..], id);
    }
  }

  /** With the tasks of the row serialised its first verdict and error are final, whatever happens afterwards and
      however the tasks of other rows race. */
  lemma SerialVerdictsAreFinal(env: Env, acts: seq<Action>, later: seq<Action>, id: Id)
    requires Run(env, Initial(), acts) && SerialRun(env, Initial(), acts, id)
    requires var s := After(env, Initial(), acts);
      id in s.rows && HasVerdict(s.rows[id]) && Run(env, s, later)
    ensures var s := After(env, Initial(), acts);
      id in After(env, s, later).rows && After(env, s, later).rows[id] == s.rows[id]
  {
    var s := After(env, Initial(), acts);
    RunKeepsInv(env, Initial(), acts);
    SerialRunKeeps(env, Initial(), acts, id);
    assert Settled(s, id) by {
      forall t | 0 <= t < |s.tasks| && s.tasks[t].phase.Judging? && s.tasks[t].update.id == id
        ensures false
      {
        assert Holds(s.tasks, t, id);
      }
    }
    SettledRun(env, s, later, id);
  }

  // ----- racing reports -----

  predicate Live(task: Task, id: Id) {
    task.update.id == id && !task.phase.Over?
  }

  ghost predicate Pending(s: State, id: Id) {
    exists t :: 0 <= t < |s.tasks| && Live(s.tasks[t], id)
  }

  /** None of the row's own tasks is lost for good, and every report of it that arrives is an expected one.
      Tasks of other rows may do anything. */
  ghost predicate ExpectedStep(s: State, a: Action, id: Id, expected: Update -> bool) {
    match a
    case Locate(_, found, delivered, reason) => found == id ==> expected(Update(id, delivered, reason))
    case TaskCrash(t, redelivered) => TaskOf(s.tasks, t, id) ==> redelivered
    case ReadRaises(t) => TaskOf(s.tasks, t, id) ==> s.tasks[t].retries < MAX_RETRIES
    case SaveUpdate(t, _, db) => TaskOf(s.tasks, t, id) ==> db.Commits? || s.tasks[t].retries < MAX_RETRIES
    case _ => true
  }

  ghost predicate ExpectedRun(env: Env, s: State, acts: seq<Action>, id: Id, expected: Update -> bool)
    requires Run(env, s, acts)
    decreases |acts|
  {
    acts == [] || (ExpectedStep(s, acts[0], id, expected) && ExpectedRun(env, Apply(env, s, acts[0]), acts[1..], id, expected))
  }

  ghost predicate ReportsExpected(s: State, id: Id, expected: Update -> bool) {
    forall t :: 0 <= t < |s.tasks| && Live(s.tasks[t], id) ==> expected(s.tasks[t].update)
  }

  /** The row is what an expected report makes of the SENT row. */
  ghost predicate JudgedAsExpected(row: Row, sent: Row, expected: Update -> bool) {
    exists u :: expected(u) && row == Judged(sent, u)
  }

  lemma ExpectedTasks(env: Env, s: State, a: Action, id: Id, expected: Update -> bool)
    requires Enabled(env, s, a) && ReportsExpected(s, id, expected) && ExpectedStep(s, a, id, expected)
    ensures ReportsExpected(Apply(env, s, a), id, expected)
  {
  }

  lemma ExpectedRow(env: Env, s: State, a: Action, id: Id, expected: Update -> bool)
    requires Inv(env, s) && Enabled(env, s, a) && ReportsExpected(s, id, expected)
    requires id in s.rows && Reported(s.rows[id].status)
    ensures
      var row' := Apply(env, s, a).rows[id];
      row' == s.rows[id] || JudgedAsExpected(row', AsSent(s.rows[id]), expected)
  {
    if a.SaveUpdate? && s.tasks[a.t].update.id == id {
      assert TaskOk(s.rows, s.tasks[a.t]) && Live(s.tasks[a.t], id);
    } else {
      RowUntouched(env, s, a, id);
    }
  }

  /** A live task of a SENT row stays live until it saves its verdict. */
  lemma LiveTaskStays(env: Env, s: State, a: Action, id: Id, expected: Update -> bool, t: nat)
    requires Inv(env, s) && Enabled(env, s, a) && ExpectedStep(s, a, id, expected)
    requires t < |s.tasks| && Live(s.tasks[t], id) && s.rows[id].status.Sent?
    ensures var s' := Apply(env, s, a);
      t < |s'.tasks| && (Live(s'.tasks[t], id) || (a.SaveUpdate? && a.t == t && a.db.Commits?))
  {
  }

  ghost predicate Converging(s: State, id: Id, sent: Row, expected: Update -> bool) {
    && id in s.rows && sent == AsSent(sent) && ReportsExpected(s, id, expected)
    && if s.rows[id] == sent then Pending(s, id) else JudgedAsExpected(s.rows[id], sent, expected)
  }

  lemma ConvergingStep(env: Env, s: State, a: Action, id: Id, sent: Row, expected: Update -> bool)
    requires Inv(env, s) && Enabled(env, s, a) && Converging(s, id, sent, expected)
    requires ExpectedStep(s, a, id, expected)
    ensures Converging(Apply(env, s, a), id, sent, expected)
  {
    var s' := Apply(env, s, a);
    ExpectedTasks(env, s, a, id, expected);
    StepEvolves(env, s, a, id);
    ExpectedRow(env, s, a, id, expected);
    assert AsSent(s.rows[id]) == sent;
    if s'.rows[id] == sent {
      var t :| 0 <= t < |s.tasks| && Live(s.tasks[t], id);
      LiveTaskStays(env, s, a, id, expected, t);
      assert Live(s'.tasks[t], id);
    }
  }

  /** However the reads and saves of its tasks interleave, with crashes and retries and whatever happens to other rows:
      when none of its own tasks is lost and none is left, a reported SENT row has the verdict and error of one of its
      reports, and no other column has changed. */
  lemma {:induction false} ReportsConverge(
      env: Env, s: State, acts: seq<Action>, id: Id, sent: Row, expected: Update -> bool)
    requires Inv(env, s) && Run(env, s, acts) && Converging(s, id, sent, expected)
    requires ExpectedRun(env, s, acts, id, expected)
    ensures id in After(env, s, acts).rows
    ensures After(env, s, acts).rows[id] == sent || JudgedAsExpected(After(env, s, acts).rows[id], sent, expected)
    ensures !Pending(After(env, s, acts), id) ==> JudgedAsExpected(After(env, s, acts).rows[id], sent, expected)
    decreases |acts|
  {
    if acts == [] {
    } else {
      ConvergingStep(env, s, acts[0], id, sent, expected);
      StepKeepsInv(env, s, acts[0]);
      ReportsConverge(env, Apply(env, s, acts[0]), acts[1..], id, sent, expected);
    }
  }

  function AnyReport(): Update -> bool {
    (u: Update) => true
  }

  function Saying(delivered: bool): Update -> bool {
    (u: Update) => u.delivered == delivered
  }

  function Giving(v: Row): Update -> bool {
    (u: Update) => Judged(AsSent(v), u) == v
  }

  /** Without any agreement: a reported SENT row gets a verdict. */
  lemma ReportedRowGetsVerdict(env: Env, s: State, acts: seq<Action>, id: Id)
    requires Inv(env, s) && Run(env, s, acts) && id in s.rows && s.rows[id].status.Sent? && Pending(s, id)
    requires ExpectedRun(env, s, acts, id, AnyReport()) && !Pending(After(env, s, acts), id)
    ensures id in After(env, s, acts).rows && HasVerdict(After(env, s, acts).rows[id])
  {
    ReportsConverge(env, s, acts, id, s.rows[id], AnyReport());
  }

  /** When all reports of the row agree on the verdict, every interleaving ends in it, whatever reasons they give. */
  lemma AgreeingReportsConverge(env: Env, s: State, acts: seq<Action>, id: Id, sent: Row, delivered: bool)
    requires Inv(env, s) && Run(env, s, acts) && Converging(s, id, sent, Saying(delivered))
    requires ExpectedRun(env, s, acts, id, Saying(delivered)) && !Pending(After(env, s, acts), id)
    ensures id in After(env, s, acts).rows
    ensures After(env, s, acts).rows[id].status == if delivered then Delivered else DeliveryFailed
  {
    ReportsConverge(env, s, acts, id, sent, Saying(delivered));
  }

  /** When they also give the same error, every interleaving ends in the same row. */
  lemma EqualReportsConverge(env: Env, s: State, acts: seq<Action>, id: Id, v: Row)
    requires Inv(env, s) && Run(env, s, acts) && Converging(s, id, AsSent(v), Giving(v))
    requires ExpectedRun(env, s, acts, id, Giving(v)) && !Pending(After(env, s, acts), id)
    ensures id in After(env, s, acts).rows && After(env, s, acts).rows[id] == v
  {
    ReportsConverge(env, s, acts, id, AsSent(v), Giving(v));
  }

  // ----- where verdicts come from -----

  /** The verdict of the row is that of some report of it. */
  ghost predicate Attributed(s: State, id: Id) {
    id in s.rows && HasVerdict(s.rows[id]) ==>
      exists t :: 0 <= t < |s.tasks| && s.tasks[t].update.id == id
        && Judged(AsSent(s.rows[id]), s.tasks[t].update) == s.rows[id]
  }

  lemma AttributedStep(env: Env, s: State, a: Action, id: Id)
    requires Inv(env, s) && Enabled(env, s, a) && Attributed(s, id)
    ensures Attributed(Apply(env, s, a), id)
  {
    var s' := Apply(env, s, a);
    TasksKeepUpdates(env, s, a);
    if id in s'.rows && HasVerdict(s'.rows[id]) {
      if a.SaveUpdate? && s.tasks[a.t].update.id == id {
        assert TaskOk(s.rows, s.tasks[a.t]);
        var t := if s'.rows[id] == s.rows[id] then
            var t :| 0 <= t < |s.tasks| && s.tasks[t].update.id == id
              && Judged(AsSent(s.rows[id]), s.tasks[t].update) == s.rows[id]; t
          else a.t;
        assert s'.tasks[t].update == s.tasks[t].update;
      } else {
        VerdictsOnlyFromTasks(env, s, a, id);
        var t :| 0 <= t < |s.tasks| && s.tasks[t].update.id == id
          && Judged(AsSent(s.rows[id]), s.tasks[t].update) == s.rows[id];
        assert s'.tasks[t].update == s.tasks[t].update;
      }
    }
  }

  lemma TasksKeepUpdates(env: Env, s: State, a: Action)
    requires Enabled(env, s, a)
    ensures var s' := Apply(env, s, a);
      |s'.tasks| >= |s.tasks| && forall t :: 0 <= t < |s.tasks| ==> s'.tasks[t].update == s.tasks[t].update
  {
  }

  lemma VerdictsOnlyFromTasks(env: Env, s: State, a: Action, id: Id)
    requires Inv(env, s) && Enabled(env, s, a) && !(a.SaveUpdate? && s.tasks[a.t].update.id == id)
    requires id in Apply(env, s, a).rows && HasVerdict(Apply(env, s, a).rows[id])
    ensures id in s.rows && Apply(env, s, a).rows[id] == s.rows[id]
  {
    if a.FirstSave? || a.FinalSave? {
      assert JobOk(env, s.rows, s.used, s.jobs[a.j]);
    }
    if a.SaveUpdate? {
      assert TaskOk(s.rows, s.tasks[a.t]);
    }
  }

  lemma {:induction false} RunKeepsAttribution(env: Env, s: State, acts: seq<Action>, id: Id)
    requires Inv(env, s) && Run(env, s, acts) && Attributed(s, id)
    ensures Attributed(After(env, s, acts), id)
    decreases |acts|
  {
    if acts == [] {
    } else {
      AttributedStep(env, s, acts[0], id);
      StepKeepsInv(env, s, acts[0]);
      RunKeepsAttribution(env, Apply(env, s, acts[0]), acts[1..], id);
    }
  }

  /** Even racing tasks never mix: a recorded verdict, status and error together, is exactly what one report said
      of the row as its dispatch left it. */
  lemma VerdictsComeFromReports(env: Env, s: State, id: Id)
    requires Reachable(env, s) && id in s.rows && HasVerdict(s.rows[id])
    ensures exists t ::
      && 0 <= t < |s.tasks| && s.tasks[t].update.id == id
      && s.rows[id] == Judged(AsSent(s.rows[id]), s.tasks[t].update)
  {
    var acts :| Run(env, Initial(), acts) && After(env, Initial(), acts) == s;
    RunKeepsAttribution(env, Initial(), acts, id);
  }

  // ----- rows stuck in QUEUED -----

  lemma OrphanStep(env: Env, s: State, a: Action, id: Id)
    requires Inv(env, s) && Enabled(env, s, a) && id in s.rows && s.rows[id].status.Queued? && !OwnedIn(s.jobs, id)
    ensures var s' := Apply(env, s, a);
      id in s'.rows && s'.rows[id] == s.rows[id] && !OwnedIn(s'.jobs, id)
  {
    var s' := Apply(env, s, a);
    if a.SaveUpdate? {
      assert TaskOk(s.rows, s.tasks[a.t]);
    }
    assert a.FinalSave? ==> Owned(s.jobs[a.j]) != Some(id);
    RowUntouched(env, s, a, id);
    forall j | 0 <= j < |s'.jobs|
      ensures Owned(s'.jobs[j]) != Some(id)
    {
      assert j < |s.jobs| ==> Owned(s.jobs[j]) != Some(id);
      OwnersComeFresh(env, s, a, j);
    }
  }

  /** An execution keeps its row, drops it, or starts on a fresh one. */
  lemma OwnersComeFresh(env: Env, s: State, a: Action, j: nat)
    requires Enabled(env, s, a) && j < |Apply(env, s, a).jobs|
    ensures var o := Owned(Apply(env, s, a).jobs[j]);
      o.None? || (j < |s.jobs| && o == Owned(s.jobs[j])) || o.value !in s.used
  {
  }

  lemma {:induction false} OrphanStaysQueued(env: Env, s: State, acts: seq<Action>, id: Id)
    requires Inv(env, s) && Run(env, s, acts) && id in s.rows && s.rows[id].status.Queued? && !OwnedIn(s.jobs, id)
    ensures id in After(env, s, acts).rows && After(env, s, acts).rows[id] == s.rows[id]
    decreases |acts|
  {
    if acts == [] {
    } else {
      var s' := Apply(env, s, acts[0]);
      StepKeepsInv(env, s, acts[0]);
      OrphanStep(env, s, acts[0], id);
      OrphanStaysQueued(env, s', acts[1..], id);
    }
  }

  /** An execution in flight can always be driven to its outcome: let the candidates left fail, then save. */
  lemma {:induction false} OwnerCanConclude(env: Env, s: State, j: nat) returns (acts: seq<Action>)
    requires Inv(env, s) && j < |s.jobs| && (s.jobs[j].phase.Trying? || s.jobs[j].phase.Concluding?)
    ensures Run(env, s, acts)
    ensures var id := Owned(s.jobs[j]).value;
      id in After(env, s, acts).rows && !After(env, s, acts).rows[id].status.Queued?
    decreases if s.jobs[j].phase.Trying? then 1 + |s.jobs[j].phase.plan.candidates| - s.jobs[j].phase.index else 0
  {
    assert JobOk(env, s.rows, s.used, s.jobs[j]);
    if s.jobs[j].phase.Concluding? {
      acts := [FinalSave(j, 0, Commits)];
      assert Run(env, Apply(env, s, acts[0]), acts[1..]);
      assert After(env, s, acts) == After(env, Apply(env, s, acts[0]), acts[1..]);
    } else {
      var a := CallProvider(j, Rejected(None), 0);
      StepKeepsInv(env, s, a);
      var rest := OwnerCanConclude(env, Apply(env, s, a), j);
      acts := [a] + rest;
      assert acts[1..] == rest;
    }
  }

  /** A row saved as QUEUED can ever leave that status exactly when an execution still works on it: neither Celery's
      retries nor the sweep rescue the row of an execution that died or raised. */
  lemma QueuedRowStuckIff(env: Env, s: State, id: Id)
    requires Reachable(env, s) && id in s.rows && s.rows[id].status.Queued?
    ensures NeverChanges(env, s, id) <==> !OwnedIn(s.jobs, id)
  {
    ReachableInv(env, s);
    if OwnedIn(s.jobs, id) {
      var j: nat :| j < |s.jobs| && Owned(s.jobs[j]) == Some(id);
      assert JobOk(env, s.rows, s.used, s.jobs[j]);
      var acts := OwnerCanConclude(env, s, j);
      assert After(env, s, acts).rows[id] != s.rows[id];
    } else {
      forall acts | Run(env, s, acts)
        ensures id in After(env, s, acts).rows && After(env, s, acts).rows[id] == s.rows[id]
      {
        OrphanStaysQueued(env, s, acts, id);
      }
    }
  }

  /** The sweep's comment promises that a worker crash before the final save loses nothing.
      Such a crash strands the row in QUEUED for good. */
  lemma CrashStrandsRow(env: Env, s: State, j: nat)
    requires Reachable(env, s) && j < |s.jobs| && (s.jobs[j].phase.Trying? || s.jobs[j].phase.Concluding?)
    ensures
      var id := s.jobs[j].phase.e.id;
      var s' := Apply(env, s, Crash(j));
      id in s'.rows && s'.rows[id].status.Queued? && NeverChanges(env, s', id)
  {
    ReachableInv(env, s);
    assert JobOk(env, s.rows, s.used, s.jobs[j]);
    var id := s.jobs[j].phase.e.id;
    var s' := Apply(env, s, Crash(j));
    RunOne(env, s, Crash(j));
    ReachableRun(env, s, [Crash(j)]);
    assert Owned(s.jobs[j]) == Some(id);
    assert !OwnedIn(s'.jobs, id);
    QueuedRowStuckIff(env, s', id);
  }
}
