# NotifyFork in Dafny

NotifyFork sends notifications through interchangeable providers. Four kinds of actor share one table of notification
rows: dispatch executions, webhook views, webhook tasks and a periodic sweep. They run concurrently, workers die, and
Celery redelivers. This project models that system and proves what it keeps.

There are two layers.

- **Imperative layer.** `Notification.dfy`, `Repository.dfy`, `Providers.dfy`, `SendNotification.dfy`, `QueueTasks.dfy` and
  `Webhooks.dfy` hold the classes and loops of the source: the entity, the table, the provider registry and its cache, the
  fallback loop, the sweep loop and the SendGrid batch loop. Each method is proved against a specification function.
- **Step layer.** `Protocol.dfy` is a transition system. Its state is the table, the dispatch messages with the phase of
  their execution, the delivery updates with the (possibly stale) copy their task holds, the sweeps under way, and a
  history of the successes providers reported. Each await, save and enqueue is one step; a worker can die between any two;
  a save can raise before or after its commit. A theorem that quantifies over runs is about all interleavings of these
  steps, with the restrictions it names.

`Refinement.dfy` ties them: what a method does undisturbed is what a sequence of steps does (`…Realised`). It also builds
runs that break a promise, and says exactly when the promise holds.

| file | content |
|---|---|
| `Wrappers.dfy`, `Text.dfy` | option and result values; stripping and splitting |
| `Notification.dfy` | entity and state machine |
| `Repository.dfy` | table, update-or-create, oldest-first query |
| `Template.dfy` | variable mapping, LOCAL/EXTERNAL guards |
| `Providers.dfy` | provider ordering, registry cache |
| `SendNotification.dfy` | use case, fallback loop, dispatch task |
| `Webhooks.dfy` | delivery-update task, SendGrid, Twilio and Resend views |
| `QueueTasks.dfy` | sweep |
| `Protocol.dfy` | the steps of the whole system |
| `Consistency.dfy` | the inductive invariant |
| `Evolution.dfy` | rows over runs: frames, absorption, final verdicts, stuck rows |
| `Accounting.dfy` | every reported success is accounted for |
| `Quiescence.dfy` | termination and no row left QUEUED |
| `Sweeps.dfy` | what sweeps pick and enqueue over runs |
| `Refinement.dfy` | methods realise steps; runs that break a promise |
| `EndToEnd.dfy` | which provider sends |

## Where the code and its documentation disagree

The model follows the code.

- `process_delivery_update` calls itself idempotent. Run serially it is (`OnlyFirstUpdateCounts`). Two tasks that both read
  before either saves can turn DELIVERED into DELIVERY_FAILED (`VerdictCanFlip`, `RequestCanFlip`). `VerdictFinalIff` gives
  the exact condition under which a recorded verdict is final. Serialising the tasks of the row alone is enough
  (`SerialVerdictsAreFinal`), and so is that all its reports agree (`AgreeingReportsConverge`).
- The sweep's docstring promises to recover work after a crash before the final save. The sweep selects RETRYING rows only,
  and such a crash leaves the row in QUEUED for good (`CrashStrandsRow`, `QueuedRowStuckIff`).
- The dispatch task calls late acknowledgement safe on a worker crash. The message comes back, but a crash after a provider's
  acceptance sends the message again: it is never sent twice exactly when it is already over and was not sent twice before
  (`NeverSentTwiceIff`).
- A re-dispatch inserts a new row and leaves the RETRYING row as it is. So one request can be accepted by providers any
  number of times without any crash or database failure (`OneRequestManySends`); without these it is accepted at most once
  exactly when it allows a single attempt (`AcceptedAtMostOnceIff`). Once 100 older rows are RETRYING a row is never picked
  again (`NeverPickedIff`), and such a row is reached from the empty table (`StarvedRowExists`).
- The registry's documentation says a registered provider needs only `name` and `send_with_template`. The use case also
  calls `supports`, and one provider without it makes every dispatch raise (`DispatchNeedsSupportsIff`): nothing is ever saved or sent
  (`NoSupportsNothingSent`).
- The sweep's payload omits `max_attempts`, so a resubmission has the default 3.
- `delivered_at` is never written to the table.
- Resend's `email.delivery_delayed` is a failure verdict.

## Model

| member | source | states |
|---|---|---|
| Notifications.Notification.constructor | notifyfork/core/domain/entities/notification.py:52-66 | a new notification is PENDING with no attempt, provider, error or sending time |
| Notifications.Notification.Load | notifyfork/core/infrastructure/repositories/notification_repository.py:54-71 | an entity built from a row carries every field of it except the delivery time |
| Notifications.Notification.MarkQueued | notifyfork/core/domain/entities/notification.py:68-72 | only the status changes, to QUEUED |
| Notifications.Notification.MarkSent | notifyfork/core/domain/entities/notification.py:74-84 | status SENT, provider, message id and sending time are set together, whatever the status was |
| Notifications.Notification.MarkDelivered | notifyfork/core/domain/entities/notification.py:86-99 | status DELIVERED from any status; warns exactly when it was not SENT |
| Notifications.Notification.MarkDeliveryFailed | notifyfork/core/domain/entities/notification.py:101-109 | status DELIVERY_FAILED with the reason, from any status |
| Notifications.Notification.MarkFailed | notifyfork/core/domain/entities/notification.py:111-129 | one more attempt and the reason; FAILED when the attempts are used up, else RETRYING |
| Repository.NotificationRepository.Save | notifyfork/core/infrastructure/repositories/notification_repository.py:12-30 | update-or-create of the whole row, keeping `created_at` and `delivered_at` of an existing one; may raise before or after the commit |
| Repository.NotificationRepository.GetById | notifyfork/core/infrastructure/repositories/notification_repository.py:32-38 | a fresh entity with the row's values, or none when there is no row |
| Repository.NotificationRepository.GetPendingRetries | notifyfork/core/infrastructure/repositories/notification_repository.py:40-51 | fresh entities of the rows the query answers, in its order |
| Repository.LoadAfterHistory | notifyfork/core/infrastructure/repositories/notification_repository.py:12-71 | after any history of saves a read returns the last save of that id, created at its first save, without a delivery time; other ids do not matter |
| Repository.PickedHasFewOlder | notifyfork/core/infrastructure/repositories/notification_repository.py:46-51 | a picked row has fewer strictly older RETRYING rows than there are places |
| Repository.PickableIff | notifyfork/core/infrastructure/repositories/notification_repository.py:46-51 | a RETRYING row can be in an answer exactly when fewer than the limit are strictly older |
| Repository.OldestExists | notifyfork/core/infrastructure/repositories/notification_repository.py:46-51 | every table has an answer to the query |
| Templates.GuardsExclude | notifyfork/core/domain/value_objects/template.py:66-79 | a template's body serves exactly one mode; using it in the other raises with that guard's message |
| Templates.TranslateKeepsLast | notifyfork/core/domain/value_objects/template.py:27-37 | each output key carries the value of the last context key renamed to it, and there is no other output key |
| Templates.EntryComesOut | notifyfork/core/domain/value_objects/template.py:27-37 | an entry whose key is mapped comes out under the mapped key, another under its own, unless a later entry takes the key |
| Templates.TranslateLosesNothingIff | notifyfork/core/domain/value_objects/template.py:27-37 | no entry is lost exactly when the renaming is injective on the context's keys; then every entry is renamed in place |
| Templates.TranslateRoundTrip | notifyfork/core/domain/value_objects/template.py:27-37 | a mapping that renames the output keys back undoes the translation |
| Templates.InjectiveRenamingInverts | notifyfork/core/domain/value_objects/template.py:27-37 | an injective renaming has such an inverse mapping |
| Text.StripKeepsMiddle | notifyfork/core/infrastructure/container/providers.py:53 | stripping removes white space at the two ends, all of it, and nothing else |
| Text.StripPads | notifyfork/core/application/dtos/send_notification_dto.py:13-18 | a text is its stripped form with white space around it; nothing is left exactly when it is all white space |
| Text.SplitThenJoin | notifyfork/core/infrastructure/container/providers.py:53 | splitting is undone by joining and leaves no separator in a part |
| Text.FirstPartIsPrefix | notifyfork/api/webhooks/sendgrid_webhook.py:60 | the stripped message id is the longest prefix without a dot |
| Text.LowerSpells | notifyfork/api/webhooks/twilio_webhook.py:56 | a text lower-cases to a lower-case word exactly when it is the word in any ASCII case |
| Providers.OrderIsClean | notifyfork/core/infrastructure/container/providers.py:25-53 | configured names are stripped and free of commas; the default order repeats no name and names exactly the built-in providers |
| Providers.OrderReadsVariable | notifyfork/core/infrastructure/container/providers.py:52-53 | a configured order is the variable read in full and in order: joining the names, padded with white space, by commas gives it back |
| Providers.OrderWithoutVariable | notifyfork/core/infrastructure/container/providers.py:25-33 | without the variable, or with an empty one, the order is this list of seven names |
| Providers.ByNameIsLast | notifyfork/core/infrastructure/container/providers.py:55 | the provider found under a name is the one after which none of that name is registered |
| Providers.OrderedMultiplicity | notifyfork/core/infrastructure/container/providers.py:55-58 | for any registration and any order list, how often each provider comes out: an unlisted one as often as registered, the last one of a listed name once per listing, its namesakes never |
| Providers.OrderedIsPermutationIff | notifyfork/core/infrastructure/container/providers.py:55-58 | the result is a permutation of the registered providers exactly when each registered listed name is listed as often as registered, always by equal providers |
| Providers.OrderedSortsByRank | notifyfork/core/infrastructure/container/providers.py:42-58 | with distinct names and no repeated entry: listed providers in list order, then the others in registration order |
| Providers.CacheIsInvisible | notifyfork/core/infrastructure/container/providers.py:168-171 | over any sequence of registrations and reads every read returns what building afresh would, and there is one list per read |
| Providers.BuildContains | notifyfork/core/infrastructure/container/providers.py:154-159 | a built list holds exactly the built-ins and registered providers that no later one of the same listed name replaces; with distinct names, all of them |
| Providers.RegisteredIsRead | notifyfork/core/infrastructure/container/providers.py:209-215 | a registration, however late, shows in every read after it in any sequence of operations, until a provider of the same listed name takes over |
| Providers.Container.Providers | notifyfork/core/infrastructure/container/providers.py:168-171 | the list read is the ordering of built-ins and registered providers; it holds exactly those no later provider of the same listed name replaces |
| Providers.Container.RegisterProvider | notifyfork/core/infrastructure/container/providers.py:209-219 | the provider is appended and the cache dropped, which keeps the cache coherent |
| SendNotification.DispatchNeedsSupportsIff | notifyfork/core/application/use_cases/send_notification.py:108-112 | a dispatch gets candidates exactly when every registered provider has `supports` and one supports the channel |
| SendNotification.PlanErrors | notifyfork/core/application/use_cases/send_notification.py:39-44 | which error a dispatch that saves nothing raises, for every payload and registry |
| SendNotification.PayloadPassesIff | notifyfork/core/application/dtos/send_notification_dto.py:13-25 | a payload passes exactly when its recipient is not blank and `max_attempts`, if given, is 1 to 5 |
| SendNotification.SavedRowIsThePayload | notifyfork/core/application/use_cases/send_notification.py:46-56 | the saved row asks for what the payload asks for, its recipient stripped, with 3 attempts by default |
| EndToEnd.NoSupportsNothingSent | notifyfork/core/application/use_cases/send_notification.py:108-112 | while every read of the registry has a provider without `supports`, no run saves a row or reports a success, and every message that is over was given up |
| SendNotification.FallbackStopsAtFirst | notifyfork/core/application/use_cases/send_notification.py:58-103 | the loop ends at the first candidate that can handle the template and whose vendor accepts; without one it keeps the text of the last refusal: the guard's, the one raised, or the one returned with a default |
| SendNotification.LastRefusalIsSaved | notifyfork/core/application/use_cases/send_notification.py:92-105 | what a dispatch no candidate accepts saves as its error, case by case |
| SendNotification.UseCase.TryInOrder | notifyfork/core/application/use_cases/send_notification.py:58-103 | the for/else loop leaves the entity and makes the calls the fallback specification says: the accepting provider and its message id, or the text of the last refusal |
| SendNotification.UseCase.Execute | notifyfork/core/application/use_cases/send_notification.py:39-106 | nothing is saved when planning raises; else the table holds the two saves, with each database failure's effect, and the calls are the candidates up to the first acceptance |
| SendNotification.DispatchNotification | notifyfork/core/infrastructure/queue/tasks.py:19-47 | acknowledged on success, else retried while fewer than 3 retries were made, else given up |
| Webhooks.ProcessDeliveryUpdate | notifyfork/api/webhooks/tasks.py:18-74 | result and table for a missing, a terminal and any other row, and when the non-SENT warning is logged |
| Webhooks.OnlyFirstUpdateCounts | notifyfork/api/webhooks/tasks.py:48-61 | any list of updates run serially leaves each row as its first update alone would; terminal rows and other columns stay |
| Webhooks.VerdictRecorded | notifyfork/api/webhooks/tasks.py:56-61 | the row an update of an open row leaves: verdict, the reason given or the default one, no other column changed |
| Webhooks.FindNotificationId | notifyfork/api/webhooks/sendgrid_webhook.py:113-124 | found exactly when one row carries the message id; none and several are told apart |
| Webhooks.StrippedIdIsCarried | notifyfork/api/webhooks/sendgrid_webhook.py:60 | the id looked up is the one dot-free text that is the message id or that the message id continues with a dot |
| Webhooks.PostEvent | notifyfork/api/webhooks/sendgrid_webhook.py:59-83 | one event enqueues exactly when it is a delivered, bounce, dropped or spamreport event, in any case, and one row has its id without suffix, with its verdict and reason; it raises exactly when a field is null or a final event matches several rows |
| Webhooks.EventMeaning | notifyfork/api/webhooks/sendgrid_webhook.py:59-83 | the specification of the loop body enqueues an update exactly when it is the one a final event reports for the only row with the id it carries, and says exactly when it raises |
| Webhooks.SuffixIsIgnored | notifyfork/api/webhooks/sendgrid_webhook.py:60 | a final event for `id` or `id.rest` enqueues for the one row with message id `id` |
| Webhooks.PostSendGrid | notifyfork/api/webhooks/sendgrid_webhook.py:57-85 | the batch enqueues the terminal events naming one row, in order, up to the first event that raises; the count is theirs |
| Webhooks.EnqueuedInOrder | notifyfork/api/webhooks/sendgrid_webhook.py:57-85 | the updates of a batch are those of its events that enqueue one, each once and in their order |
| Webhooks.BatchThenTasks | notifyfork/api/webhooks/sendgrid_webhook.py:57-85 | a batch followed by its tasks in order gives each named open row the verdict of its first terminal event and changes no other |
| Webhooks.PostTwilio | notifyfork/api/webhooks/twilio_webhook.py:48-91 | one update exactly for a status delivered, read, failed or undelivered, in any case, of a message id one row carries, with its verdict and the reason built from code and message |
| Webhooks.PostResend | notifyfork/api/webhooks/resend_webhook.py:48-85 | the same for Resend; every final type but `email.delivered` is a failure |
| QueueTasks.RetryPendingNotifications | notifyfork/core/infrastructure/queue/tasks.py:50-82 | one message per picked row that can retry, in order, without `max_attempts`; the count is theirs |
| QueueTasks.Resubmit | notifyfork/core/infrastructure/queue/tasks.py:69-79 | the loop appends one message per entity that can retry, in order, and counts them |
| QueueTasks.ResubmittedInOrder | notifyfork/core/infrastructure/queue/tasks.py:69-79 | what the loop sends is one message, with the request alone, per notification with attempts left, in their order |
| Consistency.StepKeepsInv | notifyfork/core/domain/entities/notification.py:68-123 | every step of every actor keeps the invariant on rows, executions, tasks and sweeps |
| Consistency.ReachableInv | notifyfork/core/domain/entities/notification.py:68-123 | in every reachable state: provider and sending time exactly in SENT, DELIVERED, DELIVERY_FAILED; an error exactly in RETRYING, FAILED, DELIVERY_FAILED; one attempt exactly in RETRYING and FAILED; a message id only with a provider; RETRYING has attempts left |
| Evolution.RunEvolves | notifyfork/core/infrastructure/repositories/notification_repository.py:12-30 | over any run request, limits and creation time never change, RETRYING and FAILED rows never change at all, and full-row saves from stale copies change no column but status and error of a reported row |
| Evolution.TerminalIsForever | notifyfork/api/webhooks/tasks.py:48-61 | a terminal row stays terminal in every run, a FAILED row stays the same |
| Evolution.DispatchAndWebhooksNeverMeet | notifyfork/core/application/use_cases/send_notification.py:55-105 | no execution works on a row a view or task holds, and a task reads only SENT or terminal rows, so the not-found and non-SENT branches are unreachable |
| Evolution.DispatchWritesOwnRowOnly | notifyfork/core/application/use_cases/send_notification.py:55-105 | a dispatch save changes only a new row or the QUEUED row of its own execution |
| Evolution.VerdictFinalIff | notifyfork/api/webhooks/tasks.py:34-61 | a recorded verdict never changes in any run exactly when no task holds a copy judged otherwise |
| Evolution.VerdictCanFlip | notifyfork/api/webhooks/tasks.py:34-61 | two contrary reports of a SENT row can be recorded one after the other |
| Evolution.SerialVerdictsAreFinal | notifyfork/api/webhooks/tasks.py:34-61 | when reads of the row wait for the save of its task before, its first verdict and error are final, however tasks of other rows race |
| Evolution.ReportsConverge | notifyfork/api/webhooks/tasks.py:34-74 | for any reports: when none of the row's own tasks is lost and none is left, the row is its SENT row with verdict and error of one of the reports |
| Evolution.ReportedRowGetsVerdict | notifyfork/api/webhooks/tasks.py:34-74 | without any agreement a reported SENT row gets a verdict |
| Evolution.AgreeingReportsConverge | notifyfork/api/webhooks/tasks.py:34-74 | when all reports of the row agree on the verdict, every interleaving that loses none of its own tasks ends in it, with whatever errors they give |
| Evolution.EqualReportsConverge | notifyfork/api/webhooks/tasks.py:34-74 | when they also give the same error, every such interleaving ends in the same row |
| Evolution.VerdictsComeFromReports | notifyfork/api/webhooks/tasks.py:56-61 | status and error of a verdict are those of one report of that row |
| Evolution.QueuedRowStuckIff | notifyfork/core/application/use_cases/send_notification.py:68-75 | a QUEUED row stays so in every run exactly when no execution works on it |
| Evolution.CrashStrandsRow | notifyfork/core/infrastructure/queue/tasks.py:51-59 | a crash between the two saves leaves the row in QUEUED in every run |
| Accounting.SuccessesAreAccounted | notifyfork/core/application/use_cases/send_notification.py:59-105 | successes reported = rows naming a provider + executions about to save one + executions that died or failed to save in between |
| Accounting.RowsMatchSuccesses | notifyfork/core/application/use_cases/send_notification.py:59-105 | a reported row has exactly one success, from the provider it names; RETRYING and FAILED rows have none, QUEUED rows at most one |
| Accounting.SendsPerMessage | notifyfork/core/infrastructure/queue/tasks.py:10-47 | with retries and redeliveries, the successes of one message are its executions that died or raised after a success, plus one if its last execution has one |
| Accounting.SendsAreBounded | notifyfork/core/infrastructure/queue/tasks.py:10-47 | a message is sent at most once per execution, and executed at most 4 times plus once per crash |
| Accounting.UpdateRaisesAreBounded | notifyfork/api/webhooks/tasks.py:18-74 | the task of a delivery update raises at most 4 times in any run, whatever crashes and redeliveries there are |
| Quiescence.CalmRunEnds | notifyfork/core/application/use_cases/send_notification.py:59-105 | no endless run without new work, crashes or database failures |
| Quiescence.UnfinishedCanStep | notifyfork/core/infrastructure/queue/tasks.py:19-47 | unfinished work can always take a step |
| Quiescence.CalmRunsQuiesce | notifyfork/core/application/use_cases/send_notification.py:68-75 | after any history that orphaned no execution, all work finishes and no row is PENDING or QUEUED, whether providers accept, refuse or raise |
| Sweeps.RetryingOnlyGrows | notifyfork/core/infrastructure/repositories/notification_repository.py:46-51 | RETRYING rows, and those created before any moment, only become more |
| Sweeps.NeverPickedIff | notifyfork/core/infrastructure/repositories/notification_repository.py:46-51 | a RETRYING row is picked by no sweep of any run exactly when 100 RETRYING rows are strictly older |
| Refinement.StarvedRowExists | notifyfork/core/infrastructure/repositories/notification_repository.py:46-51 | from the empty table, without crash or failure and with a clock that only moves forward, a RETRYING row is reached that no sweep of any later run picks |
| Sweeps.CutoffNeverAdvances | notifyfork/core/infrastructure/repositories/notification_repository.py:46-51 | the creation time of the last row of a full sweep never increases |
| Sweeps.SweepIsExact | notifyfork/core/infrastructure/queue/tasks.py:65-82 | in every run after the query, whatever interleaves or dies, the loop enqueues one message per iteration for the min(100, RETRYING rows) oldest rows in their order; a loop that ends has served them all; at every moment no success was reported for any of them |
| Sweeps.SweepRealised | notifyfork/core/infrastructure/queue/tasks.py:65-82 | the undisturbed sweep is such a run |
| Sweeps.ResubmitsAll | notifyfork/core/infrastructure/queue/tasks.py:69-79 | in reachable states the `can_retry` guard of the loop always holds |
| Refinement.DispatchRealised | notifyfork/core/infrastructure/queue/tasks.py:19-47 | an undisturbed dispatch, with any planning error, vendor answers and database failures, is a run of steps with the table of `DispatchNotification` |
| Refinement.UpdateRealised | notifyfork/api/webhooks/tasks.py:18-74 | an undisturbed update is a run of steps with the table of `ProcessDeliveryUpdate` |
| Refinement.ReportRealised | notifyfork/api/webhooks/twilio_webhook.py:75-89 | a view that finds the one row of a message id and enqueues an update is two steps that add that update and nothing else |
| Refinement.BatchRealised | notifyfork/api/webhooks/sendgrid_webhook.py:57-85 | a batch is a run of steps that adds exactly the updates `PostSendGrid` enqueues, in order |
| Refinement.OneRequestManySends | notifyfork/core/infrastructure/queue/tasks.py:69-79 | one request whose first attempt failed can be accepted any number of times by dispatches and sweeps alone, every save committing |
| Refinement.AcceptedAtMostOnceIff | notifyfork/core/infrastructure/queue/tasks.py:69-79 | without another submission, a crash of the dispatch or a failing last save, a request is accepted at most once in every run exactly when it allows a single attempt |
| Refinement.RequestCanFlip | notifyfork/api/webhooks/tasks.py:34-61 | from the empty system, a dispatched request's row can be DELIVERED and later DELIVERY_FAILED |
| Refinement.NeverSentTwiceIff | notifyfork/core/infrastructure/queue/tasks.py:10-26 | a message that can be dispatched is sent at most once in every run exactly when it is already acknowledged or given up and was not sent twice before |
| EndToEnd.CandidatesAreRanked | notifyfork/core/application/use_cases/send_notification.py:108-112 | the candidates are the registered providers supporting the channel, in rank order |
| EndToEnd.LeastRankedWorkingProviderSends | notifyfork/core/application/use_cases/send_notification.py:58-112 | `provider_used` is the least-ranked supporting provider whose answer is a success; exactly those up to it are called, each once |
| EndToEnd.LastRankedErrorIsKept | notifyfork/core/application/use_cases/send_notification.py:58-112 | when none succeeds all are called, each once, and the highest-ranked one's error is kept |
| EndToEnd.LastRefusalSurvives | notifyfork/core/application/use_cases/send_notification.py:92-105 | whatever other actors do between the last refusal and the final save, the text of that refusal is saved |
| EndToEnd.ExternalTemplatesNeedExternalProviders | notifyfork/core/domain/value_objects/template.py:73-79 | in every run a row sent from an EXTERNAL template names a provider that handles EXTERNAL mode: with the built-ins, `sendgrid_email` or `twilio_whatsapp` |
| EndToEnd.NoExternalCandidateNeverSends | notifyfork/core/domain/value_objects/template.py:73-79 | without such a candidate the loop ends in the guard's error, whatever vendors would answer |

## Left out

- Vendor calls and payloads of the provider files: a provider is its name, its channels and whether it handles EXTERNAL mode; the answer of its vendor is arbitrary.
- Signature checks of the three views: the request is taken as accepted.
- `string.Template` substitution: a missing variable is one of the arbitrary answers that raise.
- Celery's delays and time limits; what is modelled is redelivery after a crash and at most 3 retries of an execution that raised.
- Broker redelivery of a message that is still being executed: the step that submits a message covers it for all safety theorems.
- The admin editing templates during a run: the active templates are fixed for a run, the set of registered providers may be presented in any order at each dispatch.
- Changes of `NOTIFYFORK_PROVIDER_ORDER` or credentials between builds of the registry: the environment is fixed, the configured built-ins are an arbitrary list.
- Two readers of `Container.providers` share one list object; lists are values here, so a caller mutating it is not captured.
- Quiescence.CalmRunsQuiesce: a provider result without a `success`, `error` or `external_id` attribute (such as `None`) is not among the answers; reading it raises outside the `try` and leaves the row QUEUED.
- JSON event members that are neither null nor strings.
- Wall-clock order: times are arbitrary integers, so the theorems do not assume a clock that moves forward.
- Column widths and types of the table: an overflow is one of the saves that raise.
- Row identifiers: a new row's id is one never used before.
- Lower-casing outside ASCII: no other character lower-cases into one of the words compared.
