/** notifyfork/core/application/use_cases/send_notification.py, and the Celery task that drives it
    in notifyfork/core/infrastructure/queue/tasks.py. */
module SendNotification {
  import opened Wrappers
  import opened Notifications
  import opened Templates
  import opened Providers
  import opened Repository
  import Text

  /** The keyword arguments of `dispatch_notification`; the sweep leaves `max_attempts` out. */
  datatype Payload = Payload(request: Request, maxAttempts: Option<int>)

  datatype Dto = Dto(request: Request, maxAttempts: int)

  datatype DispatchError =
    | InvalidPayload
    | TemplateNotFound(templateId: string)
    | NoSupportsMethod
    | NoProviderAvailable(channel: string)
    | DatabaseError

  const DEFAULT_MAX_ATTEMPTS := 3
  const UNKNOWN_ERROR := "Unknown provider error"
  const MAX_RETRIES := 3

  function Validate(p: Payload): Result<Dto, DispatchError> {
    var recipient := Text.Strip(p.request.recipient);
    var max := if p.maxAttempts.Some? then p.maxAttempts.value else DEFAULT_MAX_ATTEMPTS;
    if recipient == "" || !(1 <= max <= 5) then Failure(InvalidPayload)
    else Success(Dto(p.request.(recipient := recipient), max))
  }

  function Supporting(providers: seq<Provider>, channel: string): (r: seq<Provider>)
    ensures forall p :: p in r <==> p in providers && p.Supports(channel)
  {
    if providers == [] then []
    else (if providers[0].Supports(channel) then [providers[0]] else []) + Supporting(providers[1..], channel)
  }

  /** `_resolve_providers`: asks every provider in turn, so one without `supports` raises. */
  function ResolveProviders(providers: seq<Provider>, channel: string): Result<seq<Provider>, DispatchError> {
    if exists p :: p in providers && p.channels.None? then Failure(NoSupportsMethod)
    else
      var candidates := Supporting(providers, channel);
      if candidates == [] then Failure(NoProviderAvailable(channel)) else Success(candidates)
  }

  /** Which payloads pass validation. */
  lemma PayloadPassesIff(p: Payload)
    ensures Validate(p).Success? <==>
      && (exists k :: 0 <= k < |p.request.recipient| && !Text.IsSpace(p.request.recipient[k]))
      && (p.maxAttempts.Some? ==> p.maxAttempts.value in {1, 2, 3, 4, 5})
  {
    Text.StripPads(p.request.recipient);
  }

  datatype Plan = Plan(dto: Dto, template: Template, candidates: seq<Provider>)

  /** Everything `dispatch_notification` and `execute` do before the first save. */
  function MakePlan(templates: map<string, Template>, providers: seq<Provider>, p: Payload): Result<Plan, DispatchError> {
    var dto :- Validate(p);
    var template :- if dto.request.templateId in templates then Success(templates[dto.request.templateId])
                    else Failure(TemplateNotFound(dto.request.templateId));
    var candidates :- ResolveProviders(providers, dto.request.channel);
    Success(Plan(dto, template, candidates))
  }

  /** Which error a dispatch that saves nothing raises: the first of these. */
  lemma PlanErrors(templates: map<string, Template>, providers: seq<Provider>, p: Payload)
    ensures
      var planned := MakePlan(templates, providers, p);
      && (Validate(p).Failure? <==> planned == Failure(InvalidPayload))
      && (Validate(p).Success? ==>
            var id, channel := p.request.templateId, p.request.channel;
            && (id !in templates <==> planned == Failure(TemplateNotFound(id)))
            && (id in templates && (exists q :: q in providers && q.channels.None?) <==> planned == Failure(NoSupportsMethod))
            && (planned == Failure(NoProviderAvailable(channel)) <==>
                  id in templates && forall q :: q in providers ==> q.channels.Some? && channel !in q.channels.value)
            && (planned.Success? ==> planned.value.template == templates[id]))
  {
    var candidates := Supporting(providers, p.request.channel);
    if candidates != [] {
      assert candidates[0] in candidates;
    }
  }

  /** The documentation says a registered provider needs no `supports` method. A dispatch with a known template
      gets past provider resolution exactly when every registered provider has one and some provider supports the channel. */
  lemma DispatchNeedsSupportsIff(templates: map<string, Template>, providers: seq<Provider>, p: Payload)
    requires Validate(p).Success? && p.request.templateId in templates
    ensures MakePlan(templates, providers, p).Success? <==>
      && (forall q :: q in providers ==> q.channels.Some?)
      && (exists q :: q in providers && q.Supports(p.request.channel))
  {
    var candidates := Supporting(providers, p.request.channel);
    if candidates != [] {
      assert candidates[0] in candidates;
    }
  }

  // ----- the fallback loop -----

  /** What candidate `i` answers; `vendor(i)` is what its vendor would answer. */
  function Answer(t: Template, candidates: seq<Provider>, vendor: nat -> Outcome, i: nat): Outcome
    requires i < |candidates|
  {
    SendWithTemplate(candidates[i], t, vendor(i))
  }

  function ErrorOf(o: Outcome): string
    requires !o.Accepted?
  {
    if o.Raised? then o.message else OrElse(o.error, UNKNOWN_ERROR)
  }

  datatype Verdict = SentBy(index: nat, externalId: Option<string>) | Exhausted(error: string)

  /** The loop from candidate `i` on, with the error so far. */
  function Fallback(t: Template, candidates: seq<Provider>, vendor: nat -> Outcome, i: nat, error: string): (v: Verdict)
    requires i <= |candidates|
    ensures v.SentBy? ==> i <= v.index < |candidates|
    decreases |candidates| - i
  {
    if i == |candidates| then Exhausted(error)
    else
      var o := Answer(t, candidates, vendor, i);
      if o.Accepted? then SentBy(i, o.externalId)
      else Fallback(t, candidates, vendor, i + 1, ErrorOf(o))
  }

  /** The call does not succeed, and `text` is what is kept of it: the guard's message for a template the provider cannot
      handle, the message raised, or the error returned, with a default for none or an empty one. */
  predicate Refuses(p: Provider, t: Template, vendor: Outcome, text: string) {
    if !Handles(p, t) then text == CANNOT_RENDER
    else match vendor
      case Accepted(_) => false
      case Raised(message) => text == message
      case Rejected(Some(error)) => text == if error != "" then error else "Unknown provider error"
      case Rejected(None) => text == "Unknown provider error"
  }

  lemma CallMeaning(p: Provider, t: Template, vendor: Outcome)
    ensures SendWithTemplate(p, t, vendor).Accepted? <==> Handles(p, t) && vendor.Accepted?
    ensures SendWithTemplate(p, t, vendor).Accepted? ==> SendWithTemplate(p, t, vendor) == vendor
    ensures !SendWithTemplate(p, t, vendor).Accepted? ==> Refuses(p, t, vendor, ErrorOf(SendWithTemplate(p, t, vendor)))
  {
  }

  ghost predicate AllRefuse(t: Template, candidates: seq<Provider>, vendor: nat -> Outcome, i: nat, end: nat)
    requires end <= |candidates|
  {
    forall j: nat :: i <= j < end ==> !(Handles(candidates[j], t) && vendor(j).Accepted?)
  }

  /** The loop stops at the first acceptance; without one it reports the last candidate's error. */
  lemma {:induction false} FallbackStopsAtFirst(t: Template, candidates: seq<Provider>, vendor: nat -> Outcome, i: nat, error: string)
    requires i <= |candidates|
    ensures match Fallback(t, candidates, vendor, i, error)
      case SentBy(k, externalId) =>
        && Handles(candidates[k], t) && vendor(k) == Accepted(externalId)
        && AllRefuse(t, candidates, vendor, i, k)
      case Exhausted(last) =>
        && AllRefuse(t, candidates, vendor, i, |candidates|)
        && if i == |candidates| then last == error
           else Refuses(candidates[|candidates| - 1], t, vendor(|candidates| - 1), last)
    decreases |candidates| - i
  {
    if i == |candidates| {
    } else {
      var o := Answer(t, candidates, vendor, i);
      CallMeaning(candidates[i], t, vendor(i));
      if !o.Accepted? {
        FallbackStopsAtFirst(t, candidates, vendor, i + 1, ErrorOf(o));
      }
    }
  }

  function Called(candidates: seq<Provider>, v: Verdict): seq<Provider>
    requires v.SentBy? ==> v.index < |candidates|
  {
    if v.SentBy? then candidates[..v.index + 1] else candidates
  }

  function Conclude(e: Entity, candidates: seq<Provider>, v: Verdict, now: Time): Entity
    requires v.SentBy? ==> v.index < |candidates|
  {
    match v
    case SentBy(i, externalId) => e.Send(candidates[i].name, externalId, now)
    case Exhausted(error) => e.Fail(error)
  }

  function QueuedEntity(id: Id, dto: Dto, now: Time): Entity {
    New(id, dto.request, dto.maxAttempts, now).Queue()
  }

  /** What one execution does not decide itself: the fresh id, the clock, the database and the vendors. */
  datatype Chance = Chance(id: Id, createdAt: Time, now: Time, sentAt: Time, first: Db, last: Db, vendor: nat -> Outcome)

  /** The table an execution leaves, given its plan. */
  function Executed(rows: Table, plan: Plan, chance: Chance): Table {
    var queued := QueuedEntity(chance.id, plan.dto, chance.createdAt);
    var rows1 := StoreWith(rows, queued, chance.now, chance.first);
    if !chance.first.Commits? then rows1
    else
      var v := Fallback(plan.template, plan.candidates, chance.vendor, 0, UNKNOWN_ERROR);
      StoreWith(rows1, Conclude(queued, plan.candidates, v, chance.sentAt), chance.now, chance.last)
  }

  /** What a dispatch that no candidate accepts saves as its error, case by case. */
  lemma LastRefusalIsSaved(rows: Table, plan: Plan, chance: Chance)
    requires plan.candidates != [] && chance.first.Commits? && !chance.last.FailsBeforeCommit?
    requires AllRefuse(plan.template, plan.candidates, chance.vendor, 0, |plan.candidates|)
    ensures
      var last := plan.candidates[|plan.candidates| - 1];
      var answer := chance.vendor(|plan.candidates| - 1);
      var handled := plan.template.mode.Local? || last.external;
      var rows' := Executed(rows, plan, chance);
      && chance.id in rows'
      && var detail := rows'[chance.id].errorDetail;
      && (handled && answer.Raised? ==> detail == Some(answer.message))
      && (handled && answer.Rejected? && answer.error !in {None, Some("")} ==> detail == answer.error)
      && (handled && answer.Rejected? && answer.error in {None, Some("")} ==> detail == Some("Unknown provider error"))
      && (!handled ==> detail == Some(CANNOT_RENDER))
  {
    FallbackStopsAtFirst(plan.template, plan.candidates, chance.vendor, 0, UNKNOWN_ERROR);
  }

  /** The row an execution saves asks for what the payload asks for: the recipient stripped, the rest as it is. */
  lemma SavedRowIsThePayload(templates: map<string, Template>, providers: seq<Provider>, p: Payload, rows: Table, chance: Chance)
    requires MakePlan(templates, providers, p).Success? && !chance.first.FailsBeforeCommit?
    ensures
      var rows' := Executed(rows, MakePlan(templates, providers, p).value, chance);
      && chance.id in rows'
      && var row := rows'[chance.id];
      && Text.Pads(p.request.recipient, row.request.recipient) && Text.IsStripped(row.request.recipient)
      && row.request.recipient != ""
      && row.request.channel == p.request.channel && row.request.notificationType == p.request.notificationType
      && row.request.templateId == p.request.templateId && row.request.context == p.request.context
      && row.maxAttempts == (if p.maxAttempts.Some? then p.maxAttempts.value else 3)
  {
    Text.StripPads(p.request.recipient);
  }

  class UseCase {
    const repository: NotificationRepository
    const templates: map<string, Template>
    const providers: seq<Provider>

    constructor (repository: NotificationRepository, templates: map<string, Template>, providers: seq<Provider>)
      ensures this.repository == repository && this.templates == templates && this.providers == providers
    {
      this.repository, this.templates, this.providers := repository, templates, providers;
    }

    /** `calls` lists the providers whose `send_with_template` was called, in order. */
    method Execute(payload: Payload, chance: Chance) returns (r: Result<Id, DispatchError>, calls: seq<Provider>)
      modifies repository
      ensures MakePlan(templates, providers, payload).Failure? ==>
        && r == Failure(MakePlan(templates, providers, payload).error)
        && repository.rows == old(repository.rows) && calls == []
      ensures MakePlan(templates, providers, payload).Success? ==>
        var plan := MakePlan(templates, providers, payload).value;
        var v := Fallback(plan.template, plan.candidates, chance.vendor, 0, UNKNOWN_ERROR);
        && repository.rows == Executed(old(repository.rows), plan, chance)
        && r == (if chance.first.Commits? && chance.last.Commits? then Success(chance.id) else Failure(DatabaseError))
        && calls == if chance.first.Commits? then Called(plan.candidates, v) else []
    {
      calls := [];
      var planned := MakePlan(templates, providers, payload);
      if planned.Failure? {
        return Failure(planned.error), [];
      }
      var plan := planned.value;
      var notification := new Notification(chance.id, plan.dto.request, plan.dto.maxAttempts, chance.createdAt);
      notification.MarkQueued();
      var ok := repository.Save(notification, chance.now, chance.first);
      if !ok {
        return Failure(DatabaseError), [];
      }
      calls := TryInOrder(notification, plan.template, plan.candidates, chance.vendor, chance.sentAt);
      ok := repository.Save(notification, chance.now, chance.last);
      r := if ok then Success(chance.id) else Failure(DatabaseError);
    }

    /** The for/else loop of `execute`. */
    method TryInOrder(notification: Notification, template: Template, candidates: seq<Provider>,
                      vendor: nat -> Outcome, sentAt: Time) returns (calls: seq<Provider>)
      modifies notification
      ensures var v := Fallback(template, candidates, vendor, 0, UNKNOWN_ERROR);
        && notification.Value() == Conclude(old(notification.Value()), candidates, v, sentAt)
        && calls == Called(candidates, v)
        && (v.SentBy? ==>
              && notification.status.Sent? && notification.providerUsed == Some(candidates[v.index].name)
              && vendor(v.index) == Accepted(notification.messageId))
        && (v.Exhausted? && candidates != [] ==>
              && notification.errorDetail.Some?
              && Refuses(candidates[|candidates| - 1], template, vendor(|candidates| - 1), notification.errorDetail.value))
    {
      FallbackStopsAtFirst(template, candidates, vendor, 0, UNKNOWN_ERROR);
      var error := UNKNOWN_ERROR;
      calls := [];
      ghost var v := Fallback(template, candidates, vendor, 0, UNKNOWN_ERROR);
      for index := 0 to |candidates|
        invariant notification.Value() == old(notification.Value())
        invariant calls == candidates[..index]
        invariant v == Fallback(template, candidates, vendor, index, error)
      {
        var provider := candidates[index];
        calls := calls + [provider];
        match SendWithTemplate(provider, template, vendor(index)) {
          case Raised(message) =>
            error := message;
            continue;
          case Accepted(externalId) =>
            notification.MarkSent(provider.name, externalId, sentAt);
            return;
          case Rejected(reason) =>
            error := OrElse(reason, UNKNOWN_ERROR);
        }
      }
      notification.MarkFailed(error);
    }
  }

  // ----- the Celery task -----

  /** How one delivery of the message ends. */
  datatype TaskEnd = Acknowledged | RetryAs(retries: nat) | GivenUp

  function AfterRaise(retries: nat): TaskEnd {
    if retries < MAX_RETRIES then RetryAs(retries + 1) else GivenUp
  }

  method DispatchNotification(useCase: UseCase, payload: Payload, retries: nat, chance: Chance) returns (end: TaskEnd)
    modifies useCase.repository
    ensures end in {Acknowledged, if retries < 3 then RetryAs(retries + 1) else GivenUp}
    ensures var planned := MakePlan(useCase.templates, useCase.providers, payload);
      match planned
      case Failure(_) =>
        !end.Acknowledged? && useCase.repository.rows == old(useCase.repository.rows)
      case Success(plan) =>
        && useCase.repository.rows == Executed(old(useCase.repository.rows), plan, chance)
        && (end.Acknowledged? <==> chance.first.Commits? && chance.last.Commits?)
  {
    var r, _ := useCase.Execute(payload, chance);
    end := if r.Success? then Acknowledged else AfterRaise(retries);
  }
}
