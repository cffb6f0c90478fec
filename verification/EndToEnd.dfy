/** Which provider sends a notification: ordering, channel filter and fallback loop together. */
module EndToEnd {
  import opened Wrappers
  import opened Notifications
  import opened Templates
  import opened Providers
  import opened Repository
  import opened SendNotification
  import opened Protocol
  import opened Consistency

  lemma {:induction false} SupportingSorted(order: seq<string>, all: seq<Provider>, providers: seq<Provider>, channel: string)
    requires SortedByRank(order, all, providers)
    ensures SortedByRank(order, all, Supporting(providers, channel))
  {
    if providers == [] {
    } else {
      var rest := Supporting(providers[1..], channel);
      SupportingSorted(order, all, providers[1..], channel);
      forall p | p in rest
        ensures Rank(order, all, providers[0]) < Rank(order, all, p)
      {
        assert p in providers[1..];
      }
      SortedCons(order, all, providers[0], rest);
    }
  }

  /** A registered provider that the dispatch may use. */
  ghost predicate Eligible(registered: seq<Provider>, plan: Plan, p: Provider) {
    p in registered && p.Supports(plan.dto.request.channel)
  }

  /** Given what each vendor would answer, sending through the provider works. */
  predicate Works(plan: Plan, answer: Provider -> Outcome, p: Provider) {
    Handles(p, plan.template) && answer(p).Accepted?
  }

  ghost predicate Precedes(order: seq<string>, registered: seq<Provider>, p: Provider, q: Provider) {
    Rank(order, registered, p) < Rank(order, registered, q)
  }

  /** The candidates of a plan are the eligible providers in rank order. */
  lemma CandidatesAreRanked(templates: map<string, Template>, registered: seq<Provider>, order: seq<string>, payload: Payload)
    requires DistinctNames(registered) && NoRepeats(order)
    requires MakePlan(templates, Ordered(order, registered), payload).Success?
    ensures
      var plan := MakePlan(templates, Ordered(order, registered), payload).value;
      && SortedByRank(order, registered, plan.candidates)
      && forall p :: p in plan.candidates <==> Eligible(registered, plan, p)
  {
    OrderedSortsByRank(order, registered);
    var plan := MakePlan(templates, Ordered(order, registered), payload).value;
    SupportingSorted(order, registered, Ordered(order, registered), plan.dto.request.channel);
  }

  /** The winner is the least-ranked eligible provider that works: it is recorded in `provider_used`, and exactly the
      eligible providers up to it are called, each once. */
  lemma LeastRankedWorkingProviderSends(
      templates: map<string, Template>, registered: seq<Provider>, order: seq<string>, payload: Payload,
      answer: Provider -> Outcome, rows: Table, chance: Chance, winner: Provider)
    requires DistinctNames(registered) && NoRepeats(order)
    requires MakePlan(templates, Ordered(order, registered), payload).Success?
    requires chance.first.Commits? && chance.last.Commits?
    requires
      var plan := MakePlan(templates, Ordered(order, registered), payload).value;
      && (forall i: nat :: i < |plan.candidates| ==> chance.vendor(i) == answer(plan.candidates[i]))
      && Eligible(registered, plan, winner) && Works(plan, answer, winner)
      && (forall p :: Eligible(registered, plan, p) && Precedes(order, registered, p, winner) ==> !Works(plan, answer, p))
    ensures
      var plan := MakePlan(templates, Ordered(order, registered), payload).value;
      var called := Called(plan.candidates, Fallback(plan.template, plan.candidates, chance.vendor, 0, UNKNOWN_ERROR));
      var rows' := Executed(rows, plan, chance);
      && chance.id in rows' && rows'[chance.id].status.Sent? && rows'[chance.id].providerUsed == Some(winner.name)
      && answer(winner) == Accepted(rows'[chance.id].messageId)
      && DistinctNames(called)
      && (forall p :: p in called <==> Eligible(registered, plan, p) && !Precedes(order, registered, winner, p))
  {
    var plan := MakePlan(templates, Ordered(order, registered), payload).value;
    var c := plan.candidates;
    CandidatesAreRanked(templates, registered, order, payload);
    var w :| 0 <= w < |c| && c[w] == winner;
    FallbackStopsAtFirst(plan.template, c, chance.vendor, 0, UNKNOWN_ERROR);
    var v := Fallback(plan.template, c, chance.vendor, 0, UNKNOWN_ERROR);
    assert Handles(c[w], plan.template) && chance.vendor(w).Accepted?;
    assert v.SentBy? && v.index <= w;
    assert Works(plan, answer, c[v.index]) && !Precedes(order, registered, c[v.index], winner);
    assert v.index == w;
    CalledUpTo(order, registered, c, w);
  }

  lemma CalledUpTo(order: seq<string>, registered: seq<Provider>, c: seq<Provider>, w: nat)
    requires SortedByRank(order, registered, c) && w < |c|
    ensures DistinctNames(c)
    ensures forall p :: p in c[..w + 1] <==> p in c && !Precedes(order, registered, c[w], p)
  {
  }

  lemma NoneWorksExhausts(plan: Plan, answer: Provider -> Outcome, vendor: nat -> Outcome, last: Provider)
    requires plan.candidates != [] && last == plan.candidates[|plan.candidates| - 1]
    requires forall i: nat :: i < |plan.candidates| ==> vendor(i) == answer(plan.candidates[i])
    requires forall p :: p in plan.candidates ==> !Works(plan, answer, p)
    ensures !Works(plan, answer, last)
    ensures
      var v := Fallback(plan.template, plan.candidates, vendor, 0, UNKNOWN_ERROR);
      v.Exhausted? && Refuses(last, plan.template, answer(last), v.error)
  {
    FallbackStopsAtFirst(plan.template, plan.candidates, vendor, 0, UNKNOWN_ERROR);
    assert forall i: nat :: i < |plan.candidates| ==>
      !Works(plan, answer, plan.candidates[i]) && vendor(i) == answer(plan.candidates[i]);
  }

  lemma LastIsLast(order: seq<string>, registered: seq<Provider>, c: seq<Provider>, last: Provider)
    requires SortedByRank(order, registered, c) && last in c
    requires forall p :: p in c ==> !Precedes(order, registered, last, p)
    ensures last == c[|c| - 1]
  {
    var k :| 0 <= k < |c| && c[k] == last;
    assert !Precedes(order, registered, c[k], c[|c| - 1]);
  }

  /** When no eligible provider works, all are called, each once, and the error kept is the highest-ranked one's. */
  lemma LastRankedErrorIsKept(
      templates: map<string, Template>, registered: seq<Provider>, order: seq<string>, payload: Payload,
      answer: Provider -> Outcome, rows: Table, chance: Chance, last: Provider)
    requires DistinctNames(registered) && NoRepeats(order)
    requires MakePlan(templates, Ordered(order, registered), payload).Success?
    requires chance.first.Commits? && chance.last.Commits?
    requires
      var plan := MakePlan(templates, Ordered(order, registered), payload).value;
      && (forall i: nat :: i < |plan.candidates| ==> chance.vendor(i) == answer(plan.candidates[i]))
      && Eligible(registered, plan, last)
      && (forall p :: Eligible(registered, plan, p) ==> !Works(plan, answer, p) && !Precedes(order, registered, last, p))
    ensures
      var plan := MakePlan(templates, Ordered(order, registered), payload).value;
      var called := Called(plan.candidates, Fallback(plan.template, plan.candidates, chance.vendor, 0, UNKNOWN_ERROR));
      var rows' := Executed(rows, plan, chance);
      && DistinctNames(called) && (forall p :: p in called <==> Eligible(registered, plan, p))
      && !Works(plan, answer, last)
      && chance.id in rows' && rows'[chance.id].providerUsed == None
      && rows'[chance.id].status == (if plan.dto.maxAttempts == 1 then Status.Failed else Retrying)
      && rows'[chance.id].errorDetail.Some?
      && Refuses(last, plan.template, answer(last), rows'[chance.id].errorDetail.value)
  {
    var plan := MakePlan(templates, Ordered(order, registered), payload).value;
    CandidatesAreRanked(templates, registered, order, payload);
    LastIsLast(order, registered, plan.candidates, last);
    CalledUpTo(order, registered, plan.candidates, |plan.candidates| - 1);
    NoneWorksExhausts(plan, answer, chance.vendor, last);
    ExhaustedRow(rows, plan, chance);
  }

  lemma ExhaustedRow(rows: Table, plan: Plan, chance: Chance)
    requires chance.first.Commits? && chance.last.Commits? && 1 <= plan.dto.maxAttempts
    requires Fallback(plan.template, plan.candidates, chance.vendor, 0, UNKNOWN_ERROR).Exhausted?
    ensures
      var v := Fallback(plan.template, plan.candidates, chance.vendor, 0, UNKNOWN_ERROR);
      var rows' := Executed(rows, plan, chance);
      && chance.id in rows' && rows'[chance.id].providerUsed == None
      && rows'[chance.id].status == (if plan.dto.maxAttempts == 1 then Status.Failed else Retrying)
      && rows'[chance.id].errorDetail == Some(v.error)
  {
  }

  // ----- the last refusal over runs -----

  /** A step of the execution of message `j`. */
  predicate StepsJob(a: Action, j: nat) {
    (a.Begin? || a.Resolve? || a.LookupRaises? || a.FirstSave? || a.CallProvider? || a.FinalSave? || a.Crash?) && a.j == j
  }

  lemma OthersKeepJob(env: Env, s: State, a: Action, j: nat)
    requires Enabled(env, s, a) && j < |s.jobs| && !StepsJob(a, j)
    ensures j < |Apply(env, s, a).jobs| && Apply(env, s, a).jobs[j] == s.jobs[j]
  {
  }

  lemma {:induction false} OthersKeepJobRun(env: Env, s: State, acts: seq<Action>, j: nat)
    requires Run(env, s, acts) && j < |s.jobs| && forall a :: a in acts ==> !StepsJob(a, j)
    ensures j < |After(env, s, acts).jobs| && After(env, s, acts).jobs[j] == s.jobs[j]
    decreases |acts|
  {
    if acts == [] {
    } else {
      OthersKeepJob(env, s, acts[0], j);
      OthersKeepJobRun(env, Apply(env, s, acts[0]), acts[1..], j);
    }
  }

  lemma RefusedCall(s: State, j: nat, vendor: Outcome, now: Time)
    requires j < |s.jobs| && s.jobs[j].phase.Trying? && s.jobs[j].phase.index + 1 == |s.jobs[j].phase.plan.candidates|
    requires
      var Trying(e, plan, index, _) := s.jobs[j].phase;
      !(Handles(plan.candidates[index], plan.template) && vendor.Accepted?)
    ensures
      var Trying(e, plan, index, _) := s.jobs[j].phase;
      var s' := AfterCall(s, j, vendor, now);
      && j < |s'.jobs| && s'.jobs[j].phase.Concluding? && s'.jobs[j].phase.e.id == e.id
      && s'.jobs[j].phase.e.errorDetail.Some?
      && Refuses(plan.candidates[index], plan.template, vendor, s'.jobs[j].phase.e.errorDetail.value)
  {
    var Trying(e, plan, index, _) := s.jobs[j].phase;
    CallMeaning(plan.candidates[index], plan.template, vendor);
  }

  /** Whatever other actors do between the refusal of the last candidate and the final save,
      what is saved as the error is what was kept of that refusal. */
  lemma LastRefusalSurvives(env: Env, s: State, j: nat, vendor: Outcome, now: Time, others: seq<Action>, later: Time)
    requires Enabled(env, s, CallProvider(j, vendor, now))
    requires
      var Trying(e, plan, index, _) := s.jobs[j].phase;
      index + 1 == |plan.candidates| && !(Handles(plan.candidates[index], plan.template) && vendor.Accepted?)
    requires Run(env, AfterCall(s, j, vendor, now), others) && forall a :: a in others ==> !StepsJob(a, j)
    ensures
      var Trying(e, plan, index, _) := s.jobs[j].phase;
      var s' := After(env, AfterCall(s, j, vendor, now), others);
      && Enabled(env, s', FinalSave(j, later, Commits))
      && var rows' := Apply(env, s', FinalSave(j, later, Commits)).rows;
      && e.id in rows' && rows'[e.id].errorDetail.Some?
      && Refuses(plan.candidates[index], plan.template, vendor, rows'[e.id].errorDetail.value)
  {
    RefusedCall(s, j, vendor, now);
    OthersKeepJobRun(env, AfterCall(s, j, vendor, now), others, j);
  }

  // ----- EXTERNAL templates -----

  /** In every run and under every ordering, a row sent from an EXTERNAL template names a provider that handles
      EXTERNAL mode; with the built-in providers that is SendGrid or Twilio WhatsApp. */
  lemma ExternalTemplatesNeedExternalProviders(env: Env, s: State, id: Id)
    requires Reachable(env, s) && id in s.rows && s.rows[id].providerUsed.Some?
    requires var t := s.rows[id].request.templateId; t in env.templates && env.templates[t].mode.External?
    ensures exists p ::
      && p in env.known && p.external && p.name == s.rows[id].providerUsed.value
      && p.Supports(s.rows[id].request.channel)
    ensures env.known <= BuiltIns() ==> s.rows[id].providerUsed.value in {"sendgrid_email", "twilio_whatsapp"}
  {
    ReachableInv(env, s);
    assert RowOk(env, s.rows[id]);
  }

  /** An EXTERNAL template on a channel without such a provider is never sent, whatever the vendors would answer. */
  lemma NoExternalCandidateNeverSends(plan: Plan, vendor: nat -> Outcome)
    requires plan.template.mode.External? && plan.candidates != []
    requires forall p :: p in plan.candidates ==> !p.external
    ensures Fallback(plan.template, plan.candidates, vendor, 0, UNKNOWN_ERROR) == Exhausted(CANNOT_RENDER)
  {
    FallbackStopsAtFirst(plan.template, plan.candidates, vendor, 0, UNKNOWN_ERROR);
    assert forall i: nat :: i < |plan.candidates| ==> Answer(plan.template, plan.candidates, vendor, i) == Raised(CANNOT_RENDER);
  }

  // ----- a provider without `supports` -----

  /** Every read of the registry contains a provider without a `supports` method. */
  ghost predicate ReadsUnsupported(acts: seq<Action>) {
    forall a :: a in acts && a.Resolve? ==> exists p :: p in a.registry && p.channels.None?
  }

  /** Nothing has been saved, found or sent, and no message got past planning. */
  ghost predicate NothingStarted(s: State) {
    && s.rows == map[] && s.log == [] && s.tasks == []
    && (forall w :: 0 <= w < |s.sweeps| ==> s.sweeps[w] == [])
    && (forall j :: 0 <= j < |s.jobs| ==>
          s.jobs[j].phase.Idle? || s.jobs[j].phase.Started? || s.jobs[j].phase == Finished(false))
  }

  lemma PlanNeedsSupports(templates: map<string, Template>, providers: seq<Provider>, p: Payload)
    requires exists q :: q in providers && q.channels.None?
    ensures MakePlan(templates, providers, p).Failure?
  {
  }

  lemma NothingStartedStep(env: Env, s: State, a: Action)
    requires NothingStarted(s) && Enabled(env, s, a) && ReadsUnsupported([a])
    ensures NothingStarted(Apply(env, s, a))
  {
    if a.Resolve? {
      assert a in [a];
      PlanNeedsSupports(env.templates, a.registry, s.jobs[a.j].payload);
    }
  }

  /** While every read of the registry contains a provider without `supports`, no run of the system saves a row or
      calls a provider, and every message that is over has been given up. */
  lemma {:induction false} NoSupportsNothingSent(env: Env, s: State, acts: seq<Action>)
    requires Run(env, s, acts) && NothingStarted(s) && ReadsUnsupported(acts)
    ensures NothingStarted(After(env, s, acts))
    decreases |acts|
  {
    if acts == [] {
    } else {
      assert acts[0] in acts;
      NothingStartedStep(env, s, acts[0]);
      NoSupportsNothingSent(env, Apply(env, s, acts[0]), acts[1..]);
    }
  }
}
