/** Every success a provider reports is accounted for: by a row that records it, by an execution about to
    record it, or by an execution that died in between. */
module Accounting {
  import opened Wrappers
  import opened Notifications
  import opened Providers
  import opened Repository
  import opened SendNotification
  import opened Protocol
  import opened Consistency

  // ----- counting the history -----

  function SuccessesOf(log: seq<Accept>, id: Id): nat {
    if log == [] then 0
    else SuccessesOf(log[..|log| - 1], id) + if log[|log| - 1].id == id then 1 else 0
  }

  /** The provider of the last success for the row. */
  function ProviderOf(log: seq<Accept>, id: Id): Option<string> {
    if log == [] then None
    else if log[|log| - 1].id == id then Some(log[|log| - 1].provider)
    else ProviderOf(log[..|log| - 1], id)
  }

  /** Executions that ended with a success for the row and did not save it. */
  function LossesOf(deaths: seq<Death>, id: Id): nat {
    if deaths == [] then 0
    else
      var d := deaths[|deaths| - 1];
      LossesOf(deaths[..|deaths| - 1], id) + if d.id == id && !d.saved then 1 else 0
  }

  lemma LogAppend(log: seq<Accept>, a: Accept, id: Id)
    ensures SuccessesOf(log + [a], id) == SuccessesOf(log, id) + if a.id == id then 1 else 0
    ensures ProviderOf(log + [a], id) == if a.id == id then Some(a.provider) else ProviderOf(log, id)
  {
  }

  lemma DeathsAppend(deaths: seq<Death>, d: Death, id: Id)
    ensures LossesOf(deaths + [d], id) == LossesOf(deaths, id) + if d.id == id && !d.saved then 1 else 0
  {
  }

  // ----- the books of one row -----

  /** The execution has a success it has not saved yet. */
  predicate HoldsSent(job: Job) {
    job.phase.Concluding? && job.phase.e.status.Sent?
  }

  predicate AwaitsSave(jobs: seq<Job>, id: Id) {
    exists j :: 0 <= j < |jobs| && HoldsSent(jobs[j]) && Owned(jobs[j]) == Some(id)
  }

  predicate IsReported(rows: Table, id: Id) {
    id in rows && Reported(rows[id].status)
  }

  function One(b: bool): nat {
    if b then 1 else 0
  }

  ghost predicate Book(s: State, id: Id) {
    && SuccessesOf(s.log, id) == One(IsReported(s.rows, id)) + One(AwaitsSave(s.jobs, id)) + LossesOf(s.deaths, id)
    && LossesOf(s.deaths, id) <= 1
    && (LossesOf(s.deaths, id) == 1 ==> id in s.rows && s.rows[id].status.Queued? && !OwnedIn(s.jobs, id))
    && (IsReported(s.rows, id) ==> s.rows[id].providerUsed == ProviderOf(s.log, id))
    && (forall j :: 0 <= j < |s.jobs| && HoldsSent(s.jobs[j]) && Owned(s.jobs[j]) == Some(id) ==>
          s.jobs[j].phase.e.providerUsed == ProviderOf(s.log, id))
  }

  /** Two job lists in which the same executions work on the row, in the same phases. */
  ghost predicate SameOwners(jobs: seq<Job>, jobs': seq<Job>, id: Id) {
    && (forall j :: 0 <= j < |jobs| && Owned(jobs[j]) == Some(id) ==> j < |jobs'| && jobs'[j] == jobs[j])
    && (forall j :: 0 <= j < |jobs'| && Owned(jobs'[j]) == Some(id) ==> j < |jobs| && jobs'[j] == jobs[j])
  }

  ghost predicate OnlyOwner(jobs: seq<Job>, j: nat, id: Id) {
    j < |jobs| && forall k :: 0 <= k < |jobs| && Owned(jobs[k]) == Some(id) ==> k == j
  }

  /** The one execution `j` working on the row decides what the books say of it. */
  lemma OwnerDecides(jobs: seq<Job>, j: nat, id: Id)
    requires OnlyOwner(jobs, j, id)
    ensures OwnedIn(jobs, id) <==> Owned(jobs[j]) == Some(id)
    ensures AwaitsSave(jobs, id) <==> HoldsSent(jobs[j]) && Owned(jobs[j]) == Some(id)
  {
  }

  /** The log grows only by the success of a call, the deaths only by an execution with an unsaved success. */
  lemma HistoryStep(env: Env, s: State, a: Action)
    requires Enabled(env, s, a)
    ensures var s' := Apply(env, s, a);
      && (s'.log == s.log || (a.CallProvider? && HoldsSent(s'.jobs[a.j])
           && s'.log == s.log + [Accept(s.jobs[a.j].phase.e.id, s'.jobs[a.j].phase.e.providerUsed.value, a.j)]))
      && (s'.deaths == s.deaths || (|s'.deaths| == |s.deaths| + 1 && (a.FinalSave? || a.Crash?) && HoldsSent(s.jobs[a.j])
           && s'.deaths == s.deaths + [Death(s.jobs[a.j].phase.e.id, a.j, a.FinalSave? && a.db.FailsAfterCommit?)]))
  {
  }

  /** The actions of the execution that works on the row, and the one that makes the row its own. */
  predicate Concerns(s: State, a: Action, id: Id) {
    match a
    case Resolve(_, _, chosen, _) => chosen == id
    case FirstSave(j, _, _) => j < |s.jobs| && Owned(s.jobs[j]) == Some(id)
    case CallProvider(j, _, _) => j < |s.jobs| && Owned(s.jobs[j]) == Some(id)
    case FinalSave(j, _, _) => j < |s.jobs| && Owned(s.jobs[j]) == Some(id)
    case Crash(j) => j < |s.jobs| && Owned(s.jobs[j]) == Some(id)
    case _ => false
  }

  lemma OthersKeepOwners(env: Env, s: State, a: Action, id: Id)
    requires Enabled(env, s, a) && !Concerns(s, a, id)
    ensures SameOwners(s.jobs, Apply(env, s, a).jobs, id)
  {
  }

  lemma OthersKeepRow(env: Env, s: State, a: Action, id: Id)
    requires Inv(env, s) && Enabled(env, s, a) && !Concerns(s, a, id)
    ensures var s' := Apply(env, s, a);
      && (id in s'.rows <==> id in s.rows)
      && (id in s.rows ==>
            && Reported(s'.rows[id].status) == Reported(s.rows[id].status)
            && s'.rows[id].providerUsed == s.rows[id].providerUsed
            && (s.rows[id].status.Queued? ==> s'.rows[id].status.Queued?))
  {
    if a.SaveUpdate? {
      assert TaskOk(s.rows, s.tasks[a.t]);
    }
  }

  lemma OthersKeepHistory(env: Env, s: State, a: Action, id: Id)
    requires Enabled(env, s, a) && !Concerns(s, a, id)
    ensures var s' := Apply(env, s, a);
      && SuccessesOf(s'.log, id) == SuccessesOf(s.log, id) && ProviderOf(s'.log, id) == ProviderOf(s.log, id)
      && LossesOf(s'.deaths, id) == LossesOf(s.deaths, id)
  {
  }

  /** Only one execution works on the row, before and after a step of it. */
  lemma SoleOwner(env: Env, s: State, a: Action, id: Id)
    requires Inv(env, s) && Enabled(env, s, a) && Concerns(s, a, id)
    ensures var s' := Apply(env, s, a);
      OnlyOwner(s.jobs, a.j, id) && OnlyOwner(s'.jobs, a.j, id)
  {
  }

  /** While an execution works on a saved row, the row is QUEUED and nothing of it is lost. */
  lemma BookOfOwner(env: Env, s: State, j: nat, id: Id)
    requires Inv(env, s) && Book(s, id) && j < |s.jobs| && Owned(s.jobs[j]) == Some(id)
    requires s.jobs[j].phase.Trying? || s.jobs[j].phase.Concluding?
    ensures id in s.rows && s.rows[id].status.Queued? && LossesOf(s.deaths, id) == 0
    ensures SuccessesOf(s.log, id) == One(HoldsSent(s.jobs[j]))
    ensures HoldsSent(s.jobs[j]) ==> s.jobs[j].phase.e.providerUsed == ProviderOf(s.log, id)
  {
  }

  /** The books from what the only execution that may work on the row is doing. */
  lemma BookFromOwner(s: State, j: nat, id: Id)
    requires OnlyOwner(s.jobs, j, id)
    requires
      var owned := Owned(s.jobs[j]) == Some(id);
      && SuccessesOf(s.log, id) ==
           One(IsReported(s.rows, id)) + One(owned && HoldsSent(s.jobs[j])) + LossesOf(s.deaths, id)
      && LossesOf(s.deaths, id) <= 1
      && (LossesOf(s.deaths, id) == 1 ==> id in s.rows && s.rows[id].status.Queued? && !owned)
      && (IsReported(s.rows, id) ==> s.rows[id].providerUsed == ProviderOf(s.log, id))
      && (owned && HoldsSent(s.jobs[j]) ==> s.jobs[j].phase.e.providerUsed == ProviderOf(s.log, id))
    ensures Book(s, id)
  {
  }

  lemma AcceptBook(s: State, s': State, j: nat, a: Accept)
    requires SuccessesOf(s.log, a.id) == 0 && LossesOf(s.deaths, a.id) == 0
    requires s'.log == s.log + [a] && s'.deaths == s.deaths && OnlyOwner(s'.jobs, j, a.id)
    requires HoldsSent(s'.jobs[j]) && Owned(s'.jobs[j]) == Some(a.id) && s'.jobs[j].phase.e.providerUsed == Some(a.provider)
    requires !IsReported(s'.rows, a.id)
    ensures Book(s', a.id)
  {
    LogAppend(s.log, a, a.id);
    BookFromOwner(s', j, a.id);
  }

  /** A call keeps the row with its execution; only an acceptance leaves it a SENT entity, and is logged once. */
  lemma CallShape(s: State, j: nat, vendor: Outcome, now: Time)
    requires j < |s.jobs| && s.jobs[j].phase.Trying? && s.jobs[j].phase.index < |s.jobs[j].phase.plan.candidates|
    requires !s.jobs[j].phase.e.status.Sent?
    ensures
      var s' := AfterCall(s, j, vendor, now);
      var Trying(e, plan, index, _) := s.jobs[j].phase;
      && s'.rows == s.rows && s'.deaths == s.deaths && |s'.jobs| == |s.jobs| && Owned(s'.jobs[j]) == Some(e.id)
      && (if HoldsSent(s'.jobs[j])
          then s'.log == s.log + [Accept(e.id, plan.candidates[index].name, j)]
            && s'.jobs[j].phase.e.providerUsed == Some(plan.candidates[index].name)
          else s'.log == s.log)
  {
  }

  lemma OwnCall(env: Env, s: State, j: nat, vendor: Outcome, now: Time)
    requires Inv(env, s) && Enabled(env, s, CallProvider(j, vendor, now)) && Book(s, s.jobs[j].phase.e.id)
    ensures Book(AfterCall(s, j, vendor, now), s.jobs[j].phase.e.id)
  {
    var Trying(e, plan, index, _) := s.jobs[j].phase;
    SoleOwner(env, s, CallProvider(j, vendor, now), e.id);
    BookOfOwner(env, s, j, e.id);
    assert !e.status.Sent? by { assert JobOk(env, s.rows, s.used, s.jobs[j]); }
    CallBook(s, j, vendor, now);
  }

  lemma CallBook(s: State, j: nat, vendor: Outcome, now: Time)
    requires j < |s.jobs| && s.jobs[j].phase.Trying? && s.jobs[j].phase.index < |s.jobs[j].phase.plan.candidates|
    requires !s.jobs[j].phase.e.status.Sent?
    requires
      var id := s.jobs[j].phase.e.id;
      && SuccessesOf(s.log, id) == 0 && LossesOf(s.deaths, id) == 0 && !IsReported(s.rows, id)
      && OnlyOwner(AfterCall(s, j, vendor, now).jobs, j, id)
    ensures Book(AfterCall(s, j, vendor, now), s.jobs[j].phase.e.id)
  {
    var Trying(e, plan, index, _) := s.jobs[j].phase;
    var s' := AfterCall(s, j, vendor, now);
    CallShape(s, j, vendor, now);
    if HoldsSent(s'.jobs[j]) {
      AcceptBook(s, s', j, Accept(e.id, plan.candidates[index].name, j));
    } else {
      StartBook(s, s', j, e.id);
    }
  }

  /** The execution `j` with outcome `e` ends: its row records the outcome, or its success is lost. */
  lemma EndBook(s: State, s': State, j: nat, e: Entity, saved: bool)
    requires OnlyOwner(s'.jobs, j, e.id) && Owned(s'.jobs[j]).None? && s'.log == s.log
    requires LossesOf(s.deaths, e.id) == 0 && SuccessesOf(s.log, e.id) == One(e.status.Sent?)
    requires e.status.Sent? ==> e.providerUsed == ProviderOf(s.log, e.id)
    requires e.id in s'.rows
    requires if saved then Reported(s'.rows[e.id].status) == e.status.Sent? && s'.rows[e.id].providerUsed == e.providerUsed
             else s'.rows[e.id].status.Queued?
    requires s'.deaths == s.deaths + [Death(e.id, j, saved)] || (s'.deaths == s.deaths && (saved || !e.status.Sent?))
    requires s'.deaths != s.deaths ==> e.status.Sent?
    ensures Book(s', e.id)
  {
  }

  lemma OwnFinalSave(env: Env, s: State, j: nat, now: Time, db: Db)
    requires Inv(env, s) && Enabled(env, s, FinalSave(j, now, db)) && Book(s, s.jobs[j].phase.e.id)
    ensures Book(Apply(env, s, FinalSave(j, now, db)), s.jobs[j].phase.e.id)
  {
    var e := s.jobs[j].phase.e;
    SoleOwner(env, s, FinalSave(j, now, db), e.id);
    BookOfOwner(env, s, j, e.id);
    OutcomeStored(env, s, j, now, db);
    EndBook(s, Apply(env, s, FinalSave(j, now, db)), j, e, !db.FailsBeforeCommit?);
  }

  lemma OutcomeStored(env: Env, s: State, j: nat, now: Time, db: Db)
    requires Inv(env, s) && j < |s.jobs| && s.jobs[j].phase.Concluding?
    ensures
      var e := s.jobs[j].phase.e;
      var rows' := StoreWith(s.rows, e, now, db);
      && e.id in s.rows && e.id in rows'
      && (db.FailsBeforeCommit? ==> rows' == s.rows)
      && (!db.FailsBeforeCommit? ==> Reported(rows'[e.id].status) == e.status.Sent? && rows'[e.id].providerUsed == e.providerUsed)
  {
  }

  lemma OwnCrash(env: Env, s: State, j: nat, id: Id)
    requires Inv(env, s) && Enabled(env, s, Crash(j)) && Owned(s.jobs[j]) == Some(id) && Book(s, id)
    ensures Book(Apply(env, s, Crash(j)), id)
  {
    var s' := Apply(env, s, Crash(j));
    SoleOwner(env, s, Crash(j), id);
    if s.jobs[j].phase.Prepared? {
      OwnerDecides(s.jobs, j, id);
      assert JobOk(env, s.rows, s.used, s.jobs[j]);
    } else {
      BookOfOwner(env, s, j, id);
    }
    DeathsAppend(s.deaths, Death(id, j, false), id);
    BookFromOwner(s', j, id);
  }

  /** Before its first save an execution's row is in no book. */
  lemma NoBookYet(env: Env, s: State, j: nat, id: Id)
    requires Inv(env, s) && Book(s, id) && OnlyOwner(s.jobs, j, id) && id !in s.rows
    requires s.jobs[j].phase.Prepared? || s.jobs[j].phase.Started?
    ensures SuccessesOf(s.log, id) == 0 && LossesOf(s.deaths, id) == 0
  {
  }

  lemma StartBook(s: State, s': State, j: nat, id: Id)
    requires SuccessesOf(s.log, id) == 0 && LossesOf(s.deaths, id) == 0
    requires s'.log == s.log && s'.deaths == s.deaths && OnlyOwner(s'.jobs, j, id)
    requires !HoldsSent(s'.jobs[j]) && !IsReported(s'.rows, id)
    ensures Book(s', id)
  {
  }

  lemma OwnStart(env: Env, s: State, a: Action, id: Id)
    requires Inv(env, s) && Enabled(env, s, a) && Book(s, id) && Concerns(s, a, id) && (a.Resolve? || a.FirstSave?)
    ensures Book(Apply(env, s, a), id)
  {
    SoleOwner(env, s, a, id);
    assert id !in s.rows by { assert JobOk(env, s.rows, s.used, s.jobs[a.j]); }
    NoBookYet(env, s, a.j, id);
    StartBook(s, Apply(env, s, a), a.j, id);
  }

  lemma StepKeepsBook(env: Env, s: State, a: Action, id: Id)
    requires Inv(env, s) && Enabled(env, s, a) && Book(s, id)
    ensures Book(Apply(env, s, a), id)
  {
    if Concerns(s, a, id) {
      match a {
        case CallProvider(j, vendor, now) => OwnCall(env, s, j, vendor, now);
        case FinalSave(j, now, db) => OwnFinalSave(env, s, j, now, db);
        case Crash(j) => OwnCrash(env, s, j, id);
        case _ => OwnStart(env, s, a, id);
      }
    } else {
      var s' := Apply(env, s, a);
      OthersKeepOwners(env, s, a, id);
      OthersKeepRow(env, s, a, id);
      OthersKeepHistory(env, s, a, id);
      assert AwaitsSave(s.jobs, id) == AwaitsSave(s'.jobs, id);
      assert OwnedIn(s.jobs, id) == OwnedIn(s'.jobs, id);
    }
  }

  lemma {:induction false} RunKeepsBook(env: Env, s: State, acts: seq<Action>, id: Id)
    requires Inv(env, s) && Run(env, s, acts) && Book(s, id)
    ensures Book(After(env, s, acts), id)
    decreases |acts|
  {
    if acts == [] {
    } else {
      StepKeepsBook(env, s, acts[0], id);
      StepKeepsInv(env, s, acts[0]);
      RunKeepsBook(env, Apply(env, s, acts[0]), acts[1..], id);
    }
  }

  lemma ReachableBook(env: Env, s: State, id: Id)
    requires Reachable(env, s)
    ensures Book(s, id)
  {
    var acts :| Run(env, Initial(), acts) && After(env, Initial(), acts) == s;
    RunKeepsBook(env, Initial(), acts, id);
  }

  // ----- the totals -----

  ghost function ReportedIds(s: State): set<Id> {
    set id | id in s.rows && s.rows[id].providerUsed.Some?
  }

  ghost function AwaitingIds(s: State): set<Id> {
    set id | id in s.rows && AwaitsSave(s.jobs, id)
  }

  ghost function LostIds(s: State): set<Id> {
    set id | id in s.rows && LossesOf(s.deaths, id) == 1
  }

  function LoggedIds(log: seq<Accept>): set<Id> {
    set i | 0 <= i < |log| :: log[i].id
  }

  lemma {:induction false} LoggedOnce(log: seq<Accept>, id: Id)
    ensures id in LoggedIds(log) <==> SuccessesOf(log, id) >= 1
  {
    if log == [] {
    } else {
      var shorter := log[..|log| - 1];
      LoggedOnce(shorter, id);
      if id in LoggedIds(log) && id !in LoggedIds(shorter) {
        var i :| 0 <= i < |log| && log[i].id == id;
        assert forall k :: 0 <= k < |shorter| ==> shorter[k].id in LoggedIds(shorter);
      }
      if id in LoggedIds(shorter) {
        var i :| 0 <= i < |shorter| && shorter[i].id == id;
        assert log[i].id in LoggedIds(log);
      }
      assert log[|log| - 1].id in LoggedIds(log);
    }
  }

  lemma {:induction false} LogSize(log: seq<Accept>)
    requires forall id :: SuccessesOf(log, id) <= 1
    ensures |LoggedIds(log)| == |log|
  {
    if log == [] {
    } else {
      var shorter := log[..|log| - 1];
      var last := log[|log| - 1];
      forall id
        ensures SuccessesOf(shorter, id) <= 1
        ensures id == last.id ==> SuccessesOf(shorter, id) == 0
      {
        assert SuccessesOf(log, id) <= 1;
      }
      LogSize(shorter);
      LoggedOnce(shorter, last.id);
      forall id
        ensures id in LoggedIds(log) <==> id in LoggedIds(shorter) + {last.id}
      {
        LoggedOnce(log, id);
        LoggedOnce(shorter, id);
      }
      assert LoggedIds(log) == LoggedIds(shorter) + {last.id};
    }
  }

  /** An execution with an unsaved success works on a QUEUED row, whose success is not lost. */
  lemma AwaitingIsQueued(env: Env, s: State, id: Id)
    requires Inv(env, s) && AwaitsSave(s.jobs, id)
    ensures id in s.rows && s.rows[id].status.Queued? && OwnedIn(s.jobs, id)
  {
  }

  /** Successes reported by providers = rows recording a provider + executions about to save one + executions that
      died or failed to save in between. A success of the last two kinds has a QUEUED row, so nothing shows it. */
  lemma SuccessesAreAccounted(env: Env, s: State)
    requires Reachable(env, s)
    ensures |s.log| == |ReportedIds(s)| + |AwaitingIds(s)| + |LostIds(s)|
    ensures forall id :: id in AwaitingIds(s) + LostIds(s) ==> id in s.rows && s.rows[id].status.Queued?
  {
    var reported, awaiting, lost := ReportedIds(s), AwaitingIds(s), LostIds(s);
    forall id
      ensures SuccessesOf(s.log, id) <= 1
    {
      RowBalance(env, s, id);
    }
    LogSize(s.log);
    forall id
      ensures id in LoggedIds(s.log) <==> id in reported || id in awaiting || id in lost
      ensures !(id in reported && id in awaiting) && !(id in reported && id in lost) && !(id in awaiting && id in lost)
    {
      RowBalance(env, s, id);
    }
    DisjointUnionSize(LoggedIds(s.log), reported, awaiting, lost);
    forall id | id in awaiting + lost
      ensures id in s.rows && s.rows[id].status.Queued?
    {
      RowBalance(env, s, id);
    }
  }

  lemma DisjointUnionSize(all: set<Id>, a: set<Id>, b: set<Id>, c: set<Id>)
    requires forall id :: id in all <==> id in a || id in b || id in c
    requires forall id :: !(id in a && id in b) && !(id in a && id in c) && !(id in b && id in c)
    ensures |all| == |a| + |b| + |c|
  {
    assert all == a + b + c;
    assert a !! b && (a + b) !! c;
  }

  lemma RowBalance(env: Env, s: State, id: Id)
    requires Reachable(env, s)
    ensures SuccessesOf(s.log, id) == One(id in ReportedIds(s)) + One(id in AwaitingIds(s)) + One(id in LostIds(s)) <= 1
    ensures id in LoggedIds(s.log) <==> SuccessesOf(s.log, id) >= 1
    ensures id in AwaitingIds(s) || id in LostIds(s) ==> s.rows[id].status.Queued?
  {
    ReachableInv(env, s);
    ReachableBook(env, s, id);
    LoggedOnce(s.log, id);
    if AwaitsSave(s.jobs, id) {
      AwaitingIsQueued(env, s, id);
    }
    if id in s.rows {
      assert RowOk(env, s.rows[id]);
    }
  }

  /** Row by row: a reported row has exactly one success behind it, from the provider it names;
      a RETRYING or FAILED row has none, a QUEUED row at most one. */
  lemma RowsMatchSuccesses(env: Env, s: State, id: Id)
    requires Reachable(env, s) && id in s.rows
    ensures Reported(s.rows[id].status) ==>
      SuccessesOf(s.log, id) == 1 && ProviderOf(s.log, id) == s.rows[id].providerUsed
    ensures s.rows[id].status.Retrying? || s.rows[id].status.Failed? ==> SuccessesOf(s.log, id) == 0
    ensures s.rows[id].status.Queued? ==>
      SuccessesOf(s.log, id) == One(id in AwaitingIds(s)) + One(id in LostIds(s)) <= 1
  {
    ReachableInv(env, s);
    ReachableBook(env, s, id);
    RowBalance(env, s, id);
  }

  // ----- how often one message is sent -----

  function AcceptsOf(log: seq<Accept>, j: nat): nat {
    if log == [] then 0
    else AcceptsOf(log[..|log| - 1], j) + if log[|log| - 1].job == j then 1 else 0
  }

  function DeathsOf(deaths: seq<Death>, j: nat): nat {
    if deaths == [] then 0
    else DeathsOf(deaths[..|deaths| - 1], j) + if deaths[|deaths| - 1].job == j then 1 else 0
  }

  predicate SentNow(job: Job) {
    HoldsSent(job) || (job.phase.Finished? && job.phase.sent)
  }

  ghost predicate Tally(s: State, j: nat) {
    AcceptsOf(s.log, j) == DeathsOf(s.deaths, j) + if j < |s.jobs| && SentNow(s.jobs[j]) then 1 else 0
  }

  lemma AcceptsAppend(log: seq<Accept>, a: Accept, j: nat)
    ensures AcceptsOf(log + [a], j) == AcceptsOf(log, j) + if a.job == j then 1 else 0
  {
  }

  lemma DeathsOfAppend(deaths: seq<Death>, d: Death, j: nat)
    ensures DeathsOf(deaths + [d], j) == DeathsOf(deaths, j) + if d.job == j then 1 else 0
  {
  }

  lemma StepKeepsTally(env: Env, s: State, a: Action, j: nat)
    requires Enabled(env, s, a) && Tally(s, j)
    ensures Tally(Apply(env, s, a), j)
  {
    var s' := Apply(env, s, a);
    HistoryStep(env, s, a);
    SentNowStep(env, s, a, j);
    if s'.log != s.log {
      AcceptsAppend(s.log, s'.log[|s.log|], j);
    }
    if s'.deaths != s.deaths {
      DeathsOfAppend(s.deaths, s'.deaths[|s.deaths|], j);
    }
  }

  predicate SentAt(jobs: seq<Job>, j: nat) {
    j < |jobs| && SentNow(jobs[j])
  }

  lemma SentNowStep(env: Env, s: State, a: Action, j: nat)
    requires Enabled(env, s, a)
    ensures var s' := Apply(env, s, a);
      SentAt(s'.jobs, j) <==>
        || (SentAt(s.jobs, j) && s'.deaths == s.deaths)
        || (SentAt(s.jobs, j) && a.j != j)
        || (a.CallProvider? && a.j == j && s'.log != s.log)
  {
  }

  lemma {:induction false} RunKeepsTally(env: Env, s: State, acts: seq<Action>, j: nat)
    requires Run(env, s, acts) && Tally(s, j)
    ensures Tally(After(env, s, acts), j)
    decreases |acts|
  {
    if acts == [] {
    } else {
      StepKeepsTally(env, s, acts[0], j);
      RunKeepsTally(env, Apply(env, s, acts[0]), acts[1..], j);
    }
  }

  /** Retries and redeliveries included, a message is sent once more than its executions that died or failed to save
      after a success, or as often: so it is sent twice only if such an execution exists. */
  lemma SendsPerMessage(env: Env, s: State, j: nat)
    requires Reachable(env, s) && j < |s.jobs|
    ensures AcceptsOf(s.log, j) == DeathsOf(s.deaths, j) + if SentNow(s.jobs[j]) then 1 else 0
  {
    var acts :| Run(env, Initial(), acts) && After(env, Initial(), acts) == s;
    RunKeepsTally(env, Initial(), acts, j);
  }

  /** How often a step of the kind `hit` occurs. */
  function Occurrences(acts: seq<Action>, hit: Action): nat {
    if acts == [] then 0 else One(acts[0] == hit) + Occurrences(acts[1..], hit)
  }

  /** Executions of message `j` that its state accounts for: one per retry, and the one under way or over. */
  function Spent(jobs: seq<Job>, j: nat): nat {
    if j < |jobs| then jobs[j].retries + One(!jobs[j].phase.Idle?) else 0
  }

  /** The execution under way may still be accepted. */
  predicate MayBeSent(jobs: seq<Job>, j: nat) {
    j < |jobs| && (jobs[j].phase.Started? || jobs[j].phase.Prepared? || jobs[j].phase.Trying?)
  }

  lemma SpentStep(env: Env, s: State, a: Action, j: nat)
    requires Enabled(env, s, a)
    ensures Spent(Apply(env, s, a).jobs, j) + One(a == Crash(j)) == Spent(s.jobs, j) + One(a == Begin(j))
  {
  }

  lemma RetriesStep(env: Env, s: State, a: Action, j: nat)
    requires Enabled(env, s, a) && (j < |s.jobs| ==> s.jobs[j].retries <= MAX_RETRIES)
    ensures j < |Apply(env, s, a).jobs| ==> Apply(env, s, a).jobs[j].retries <= MAX_RETRIES
  {
  }

  lemma AcceptStep(env: Env, s: State, a: Action, j: nat)
    requires Enabled(env, s, a)
    ensures var s' := Apply(env, s, a);
      AcceptsOf(s'.log, j) + One(MayBeSent(s'.jobs, j)) <= AcceptsOf(s.log, j) + One(MayBeSent(s.jobs, j)) + One(a == Begin(j))
  {
    var s' := Apply(env, s, a);
    HistoryStep(env, s, a);
    if s'.log != s.log {
      AcceptsAppend(s.log, s'.log[|s.log|], j);
    }
  }

  lemma {:induction false} ExecutionsCounted(env: Env, s: State, acts: seq<Action>, j: nat)
    requires Run(env, s, acts) && (j < |s.jobs| ==> s.jobs[j].retries <= MAX_RETRIES)
    ensures var s' := After(env, s, acts);
      && Spent(s'.jobs, j) + Occurrences(acts, Crash(j)) == Spent(s.jobs, j) + Occurrences(acts, Begin(j))
      && (j < |s'.jobs| ==> s'.jobs[j].retries <= MAX_RETRIES)
      && AcceptsOf(s'.log, j) <= AcceptsOf(s.log, j) + One(MayBeSent(s.jobs, j)) + Occurrences(acts, Begin(j))
    decreases |acts|
  {
    if acts == [] {
    } else {
      SpentStep(env, s, acts[0], j);
      RetriesStep(env, s, acts[0], j);
      AcceptStep(env, s, acts[0], j);
      ExecutionsCounted(env, Apply(env, s, acts[0]), acts[1..], j);
    }
  }

  /** A message is sent at most once per execution, and executed at most four times and once more per crash. */
  lemma SendsAreBounded(env: Env, acts: seq<Action>, j: nat)
    requires Run(env, Initial(), acts)
    ensures AcceptsOf(After(env, Initial(), acts).log, j)
      <= Occurrences(acts, Begin(j)) <= 4 + Occurrences(acts, Crash(j))
  {
    ExecutionsCounted(env, Initial(), acts, j);
  }

  // ----- how often one delivery update raises -----

  /** A step in which the task of update `t` raises. */
  predicate TaskRaises(a: Action, t: nat) {
    a == ReadRaises(t) || (a.SaveUpdate? && a.t == t && !a.db.Commits?)
  }

  function TaskRaisesIn(acts: seq<Action>, t: nat): nat {
    if acts == [] then 0 else One(TaskRaises(acts[0], t)) + TaskRaisesIn(acts[1..], t)
  }

  /** Raises a task has behind it at most, given its state. */
  function RaisesBehind(tasks: seq<Task>, t: nat): nat {
    if t < |tasks| then tasks[t].retries + One(tasks[t].phase.Over?) else 0
  }

  lemma TaskRaisesStep(env: Env, s: State, a: Action, t: nat)
    requires Enabled(env, s, a) && (t < |s.tasks| ==> s.tasks[t].retries <= 3)
    ensures var s' := Apply(env, s, a);
      && RaisesBehind(s.tasks, t) + One(TaskRaises(a, t)) <= RaisesBehind(s'.tasks, t)
      && (t < |s'.tasks| ==> s'.tasks[t].retries <= 3)
  {
  }

  lemma {:induction false} TaskRaisesCounted(env: Env, s: State, acts: seq<Action>, t: nat)
    requires Run(env, s, acts) && (t < |s.tasks| ==> s.tasks[t].retries <= 3)
    ensures var s' := After(env, s, acts);
      && RaisesBehind(s.tasks, t) + TaskRaisesIn(acts, t) <= RaisesBehind(s'.tasks, t)
      && (t < |s'.tasks| ==> s'.tasks[t].retries <= 3)
    decreases |acts|
  {
    if acts == [] {
    } else {
      TaskRaisesStep(env, s, acts[0], t);
      TaskRaisesCounted(env, Apply(env, s, acts[0]), acts[1..], t);
    }
  }

  /** The task of a delivery update raises at most four times in any run, whatever crashes and redeliveries there are. */
  lemma UpdateRaisesAreBounded(env: Env, acts: seq<Action>, t: nat)
    requires Run(env, Initial(), acts)
    ensures TaskRaisesIn(acts, t) <= 4
  {
    TaskRaisesCounted(env, Initial(), acts, t);
  }
}
