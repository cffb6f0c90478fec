/** notifyfork/api/webhooks: the delivery-update task and the three views that enqueue it. */
module Webhooks {
  import opened Wrappers
  import opened Notifications
  import opened Repository
  import Text

  const DEFAULT_REASON := "Provider reported delivery failure"

  /** The keyword arguments of `process_delivery_update`, without the provider name it only logs. */
  datatype Update = Update(id: Id, delivered: bool, reason: Option<string>)

  /** The mutation of the fetched entity. */
  function Judge(e: Entity, u: Update, now: Time): Entity {
    if u.delivered then e.Deliver(now) else e.FailDelivery(OrElse(u.reason, DEFAULT_REASON))
  }

  /** One undisturbed run of `process_delivery_update` over the table. */
  function Process(rows: Table, u: Update, now: Time, db: Db): Table {
    var e := Load(rows, u.id);
    if e.None? || e.value.IsTerminal() then rows
    else StoreWith(rows, Judge(e.value, u, now), now, db)
  }

  datatype TaskResult = NotFound | AlreadyTerminal | Updated(status: Status) | Raises

  /** `warned` is the warning of `mark_delivered` for a notification that was not SENT. */
  method ProcessDeliveryUpdate(repository: NotificationRepository, u: Update, now: Time, db: Db)
    returns (r: TaskResult, warned: bool)
    modifies repository
    ensures repository.rows == Process(old(repository.rows), u, now, db)
    ensures match Load(old(repository.rows), u.id)
      case None => r == NotFound && !warned
      case Some(e) =>
        && (r == AlreadyTerminal <==> e.IsTerminal())
        && (!e.IsTerminal() ==> r == if db.Commits? then Updated(Judge(e, u, now).status) else Raises)
        && (warned <==> u.delivered && !e.IsTerminal() && !e.status.Sent?)
  {
    warned := false;
    var notification := repository.GetById(u.id);
    if notification == null {
      return NotFound, false;
    }
    if notification.Value().IsTerminal() {
      return AlreadyTerminal, false;
    }
    if u.delivered {
      warned := notification.MarkDelivered(now);
    } else {
      notification.MarkDeliveryFailed(OrElse(u.reason, DEFAULT_REASON));
    }
    var ok := repository.Save(notification, now, db);
    r := if ok then Updated(notification.status) else Raises;
  }

  // ----- serial idempotence -----

  function ProcessAll(rows: Table, updates: seq<Update>, now: Time): Table {
    if updates == [] then rows
    else ProcessAll(Process(rows, updates[0], now, Commits), updates[1..], now)
  }

  function FirstFor(updates: seq<Update>, id: Id): (i: nat)
    ensures i <= |updates|
    ensures i < |updates| ==> updates[i].id == id
    ensures forall j :: 0 <= j < i ==> updates[j].id != id
  {
    FirstIndex(updates, (u: Update) => u.id == id)
  }

  /** The row a non-terminal row becomes. */
  function Judged(row: Row, u: Update): Row {
    if u.delivered then row.(status := Delivered)
    else row.(status := DeliveryFailed, errorDetail := Some(OrElse(u.reason, DEFAULT_REASON)))
  }

  /** The row an update of an open row leaves: the verdict, for a failure the reason given or the default one,
      and every other column as it was. */
  lemma VerdictRecorded(rows: Table, u: Update, now: Time)
    requires u.id in rows && !Terminal(rows[u.id].status)
    ensures
      var row' := Process(rows, u, now, Commits)[u.id];
      && row' == rows[u.id].(status := row'.status, errorDetail := row'.errorDetail)
      && (u.delivered ==> row'.status == Delivered && row'.errorDetail == rows[u.id].errorDetail)
      && (!u.delivered ==> row'.status == DeliveryFailed)
      && (!u.delivered && u.reason !in {None, Some("")} ==> row'.errorDetail == u.reason)
      && (!u.delivered && u.reason in {None, Some("")} ==>
            row'.errorDetail == Some("Provider reported delivery failure"))
      && row' == Judged(rows[u.id], u)
  {
  }

  /** Run one after the other, only the first update of a non-terminal row counts; repetitions, later verdicts
      and updates of other rows change nothing, and terminal rows and every other column stay as they are. */
  lemma {:induction false} OnlyFirstUpdateCounts(rows: Table, updates: seq<Update>, now: Time, id: Id)
    ensures ProcessAll(rows, updates, now).Keys == rows.Keys
    ensures id in rows ==>
      var first := FirstFor(updates, id);
      ProcessAll(rows, updates, now)[id] ==
        if first == |updates| || ToEntity(id, rows[id]).IsTerminal() then rows[id] else Judged(rows[id], updates[first])
    decreases |updates|
  {
    if updates == [] {
    } else {
      OnlyFirstUpdateCounts(Process(rows, updates[0], now, Commits), updates[1..], now, id);
    }
  }

  // ----- looking a message id up -----

  datatype Lookup = Found(id: Id) | NoMatch | MultipleMatches

  function Matches(rows: Table, messageId: Option<string>): set<Id> {
    set id | id in rows && rows[id].messageId == messageId
  }

  /** `aget(provider_message_id=...)` raises on no match, which the views catch, and on several, which they do not. */
  ghost predicate IsLookup(rows: Table, messageId: Option<string>, r: Lookup) {
    match r
    case Found(id) => Matches(rows, messageId) == {id}
    case NoMatch => Matches(rows, messageId) == {}
    case MultipleMatches => |Matches(rows, messageId)| > 1
  }

  /** The one answer the database can give. */
  function Find(rows: Table, messageId: Option<string>): (r: Lookup)
    ensures IsLookup(rows, messageId, r)
  {
    var matches := Matches(rows, messageId);
    if matches == {} then NoMatch
    else if |matches| == 1 then
      var id :| id in matches;
      assert matches == {id} by { assert |matches - {id}| == 0; }
      Found(id)
    else MultipleMatches
  }

  method FindNotificationId(repository: NotificationRepository, messageId: Option<string>) returns (r: Lookup)
    ensures IsLookup(repository.rows, messageId, r)
  {
    var matches := set id | id in repository.rows && repository.rows[id].messageId == messageId;
    if matches == {} {
      r := NoMatch;
    } else {
      var id :| id in matches;
      if matches == {id} {
        r := Found(id);
      } else {
        r := MultipleMatches;
        assert |{id}| == 1 && {id} < matches;
        SubsetSize({id}, matches);
        assert |matches - {id}| > 0;
      }
    }
  }

  class UpdateQueue {
    var messages: seq<Update>

    constructor ()
      ensures messages == []
    {
      messages := [];
    }

    method Delay(u: Update)
      modifies this
      ensures messages == old(messages) + [u]
    {
      messages := messages + [u];
    }
  }

  // ----- SendGrid -----

  /** A member of a JSON object: missing, null or a string. */
  datatype Field = Missing | Null | Str(text: string)
  {
    function Value(): Option<string> {
      if Str? then Some(text) else None
    }
  }

  datatype SendGridEvent = SendGridEvent(event: Field, messageId: Field, reason: Field, kind: Field)

  const SENDGRID_DELIVERED := {"delivered"}
  const SENDGRID_FAILED := {"bounce", "dropped", "spamreport"}

  datatype EventResult = Skips | Enqueues(u: Update) | Breaks

  function EventType(e: SendGridEvent): string {
    if e.event.Str? then Text.Lower(e.event.text) else ""
  }

  function StrippedId(e: SendGridEvent): string {
    if e.messageId.Str? then Text.Split(e.messageId.text, '.')[0] else ""
  }

  function SendGridReason(e: SendGridEvent): Option<string> {
    if e.reason.Str? && e.reason.text != "" then Some(e.reason.text) else e.kind.Value()
  }

  /** What one event leads to. A null `event` or `sg_message_id` has no string methods, which raises. */
  function OnEvent(e: SendGridEvent, lookup: Lookup): EventResult {
    if e.event.Null? || e.messageId.Null? then Breaks
    else if EventType(e) !in SENDGRID_DELIVERED + SENDGRID_FAILED then Skips
    else match lookup
      case NoMatch => Skips
      case MultipleMatches => Breaks
      case Found(id) => Enqueues(Update(id, EventType(e) in SENDGRID_DELIVERED, SendGridReason(e)))
  }

  function EventResultIn(rows: Table, e: SendGridEvent): EventResult {
    OnEvent(e, Find(rows, Some(StrippedId(e))))
  }

  /** The events handled before the first that raises. */
  function Handled(rows: Table, events: seq<SendGridEvent>): (n: nat)
    ensures n <= |events|
    ensures forall k :: 0 <= k < n ==> !EventResultIn(rows, events[k]).Breaks?
    ensures n < |events| ==> EventResultIn(rows, events[n]).Breaks?
  {
    if events == [] || EventResultIn(rows, events[0]).Breaks? then 0 else Handled(rows, events[1..]) + 1
  }

  /** The updates of the events that enqueue one, in order. */
  function Enqueued(rows: Table, events: seq<SendGridEvent>): seq<Update> {
    if events == [] then []
    else
      var n := |events| - 1;
      var r := EventResultIn(rows, events[n]);
      Enqueued(rows, events[..n]) + (if r.Enqueues? then [r.u] else [])
  }

  datatype Response = BadRequest | Ignored | UnknownMessage | AcceptedCount(count: nat) | AcceptedOne | ServerError

  /** The event is of the kind `word`, in any mixture of cases. */
  predicate Says(e: SendGridEvent, word: string) {
    e.event.Str? && Text.Spells(e.event.text, word)
  }

  /** The event reports a final outcome, readably. */
  predicate IsFinal(e: SendGridEvent) {
    && !e.event.Null? && !e.messageId.Null?
    && (Says(e, "delivered") || Says(e, "bounce") || Says(e, "dropped") || Says(e, "spamreport"))
  }

  /** The message id of the event is `id`, perhaps with a suffix after a dot; a missing one reads as empty. */
  predicate Carries(e: SendGridEvent, id: string) {
    '.' !in id && match e.messageId
      case Str(text) => text == id || id + "." <= text
      case Missing => id == ""
      case Null => false
  }

  /** The reason of the event, or its type when there is no reason or an empty one. */
  predicate Explains(e: SendGridEvent, reason: Option<string>) {
    && (e.reason.Str? && e.reason.text != "" ==> reason == Some(e.reason.text))
    && (!(e.reason.Str? && e.reason.text != "") && e.kind.Str? ==> reason == Some(e.kind.text))
    && (!(e.reason.Str? && e.reason.text != "") && !e.kind.Str? ==> reason == None)
  }

  /** The update is the one the event reports for the only row that carries its message id. */
  ghost predicate ReportsUpdate(rows: Table, e: SendGridEvent, id: string, u: Update) {
    && IsFinal(e) && Carries(e, id) && Matches(rows, Some(id)) == {u.id}
    && (u.delivered <==> Says(e, "delivered")) && Explains(e, u.reason)
  }

  lemma EventTypeSays(e: SendGridEvent)
    requires !e.event.Null?
    ensures EventType(e) in SENDGRID_DELIVERED <==> Says(e, "delivered")
    ensures EventType(e) in SENDGRID_FAILED <==> Says(e, "bounce") || Says(e, "dropped") || Says(e, "spamreport")
  {
    if e.event.Str? {
      Text.LowerSpells(e.event.text, "delivered");
      Text.LowerSpells(e.event.text, "bounce");
      Text.LowerSpells(e.event.text, "dropped");
      Text.LowerSpells(e.event.text, "spamreport");
    }
  }

  /** A text has only one prefix that ends at its first dot. */
  lemma DotFreePrefix(text: string, a: string, b: string)
    requires '.' !in b && b <= text && (b == text || text[|b|] == '.')
    ensures '.' !in a && (text == a || a + "." <= text) <==> a == b
  {
    if text == a {
      assert a <= text;
    } else if a + "." <= text {
      assert a <= text && text[|a|] == '.';
    } else {
      assert a == b ==> b + "." <= text;
    }
  }

  /** The id looked up is the one the event carries, and it carries no other. */
  lemma StrippedIdIsCarried(e: SendGridEvent, id: string)
    requires !e.messageId.Null?
    ensures Carries(e, id) <==> id == StrippedId(e)
  {
    if e.messageId.Str? {
      Text.FirstPartIsPrefix(e.messageId.text, '.');
      DotFreePrefix(e.messageId.text, id, StrippedId(e));
    }
  }

  /** An event leads to an update exactly when it is final and one row has the message id it carries, without any suffix,
      and the update is the one it reports; it raises exactly when a field is null or, if final, several rows have the id. */
  lemma EventMeaning(rows: Table, e: SendGridEvent, id: string)
    requires !e.messageId.Null? ==> Carries(e, id)
    ensures forall u :: EventResultIn(rows, e) == Enqueues(u) <==> ReportsUpdate(rows, e, id, u)
    ensures EventResultIn(rows, e).Enqueues? <==> IsFinal(e) && |Matches(rows, Some(id))| == 1
    ensures EventResultIn(rows, e).Breaks? <==>
      e.event.Null? || e.messageId.Null? || (IsFinal(e) && |Matches(rows, Some(id))| > 1)
  {
    if !e.event.Null? && !e.messageId.Null? {
      EventTypeSays(e);
      StrippedIdIsCarried(e, id);
      EventOfFinal(rows, e, id);
    }
  }

  lemma EventOfFinal(rows: Table, e: SendGridEvent, id: string)
    requires !e.event.Null? && !e.messageId.Null? && Carries(e, id) && id == StrippedId(e)
    requires EventType(e) in SENDGRID_DELIVERED <==> Says(e, "delivered")
    requires EventType(e) in SENDGRID_DELIVERED + SENDGRID_FAILED <==> IsFinal(e)
    ensures forall u :: EventResultIn(rows, e) == Enqueues(u) <==> ReportsUpdate(rows, e, id, u)
    ensures EventResultIn(rows, e).Enqueues? <==> IsFinal(e) && |Matches(rows, Some(id))| == 1
    ensures EventResultIn(rows, e).Breaks? <==> IsFinal(e) && |Matches(rows, Some(id))| > 1
  {
    var matches := Matches(rows, Some(id));
    if found :| matches == {found} {
      assert ReportsUpdate(rows, e, id, Update(found, Says(e, "delivered"), SendGridReason(e))) <==> IsFinal(e);
    }
  }

  /** In particular a suffix after a dot is ignored. */
  lemma SuffixIsIgnored(rows: Table, e: SendGridEvent, id: string, rest: string, row: Id)
    requires '.' !in id && (e.messageId == Str(id) || e.messageId == Str(id + "." + rest))
    requires IsFinal(e) && Matches(rows, Some(id)) == {row}
    ensures EventResultIn(rows, e).Enqueues? && EventResultIn(rows, e).u.id == row
  {
    assert id + "." + rest == (id + ".") + rest;
    EventMeaning(rows, e, id);
  }

  /** The loop body for one event; `Breaks` stands for the exception that leaves the loop. */
  method PostEvent(repository: NotificationRepository, queue: UpdateQueue, event: SendGridEvent) returns (r: EventResult)
    modifies queue
    ensures r == EventResultIn(repository.rows, event)
    ensures !event.messageId.Null? ==> Carries(event, StrippedId(event))
    ensures r.Enqueues? <==> IsFinal(event) && |Matches(repository.rows, Some(StrippedId(event)))| == 1
    ensures r.Enqueues? ==> ReportsUpdate(repository.rows, event, StrippedId(event), r.u)
    ensures r.Breaks? <==>
      event.event.Null? || event.messageId.Null? || (IsFinal(event) && |Matches(repository.rows, Some(StrippedId(event)))| > 1)
    ensures queue.messages == old(queue.messages) + if r.Enqueues? then [r.u] else []
  {
    if !event.messageId.Null? {
      StrippedIdIsCarried(event, StrippedId(event));
    }
    EventMeaning(repository.rows, event, StrippedId(event));
    if event.event.Null? || event.messageId.Null? {
      return Breaks;
    }
    if EventType(event) !in SENDGRID_DELIVERED + SENDGRID_FAILED {
      return Skips;
    }
    var lookup := FindNotificationId(repository, Some(StrippedId(event)));
    LookupUnique(repository.rows, Some(StrippedId(event)), lookup);
    match lookup {
      case NoMatch => r := Skips;
      case MultipleMatches => r := Breaks;
      case Found(id) =>
        var u := Update(id, EventType(event) in SENDGRID_DELIVERED, SendGridReason(event));
        queue.Delay(u);
        r := Enqueues(u);
    }
  }

  /** The batch enqueues exactly the terminal events that name one row, in order, up to the first event that raises. */
  method PostSendGrid(repository: NotificationRepository, queue: UpdateQueue, events: seq<SendGridEvent>)
    returns (response: Response)
    modifies queue
    ensures var n := Handled(repository.rows, events);
      && queue.messages == old(queue.messages) + Enqueued(repository.rows, events[..n])
      && response == if n < |events| then ServerError else AcceptedCount(|Enqueued(repository.rows, events)|)
  {
    ghost var before := queue.messages;
    ghost var rows := repository.rows;
    var queued := 0;
    for k := 0 to |events|
      invariant repository.rows == rows
      invariant queue.messages == before + Enqueued(rows, events[..k])
      invariant queued == |Enqueued(rows, events[..k])|
      invariant k <= Handled(rows, events)
    {
      EnqueuedStep(rows, events, k);
      HandledStep(rows, events, k);
      var r := PostEvent(repository, queue, events[k]);
      match r {
        case Skips => continue;
        case Breaks => return ServerError;
        case Enqueues(_) => queued := queued + 1;
      }
    }
    assert events[..|events|] == events;
    response := AcceptedCount(queued);
  }

  function EventResults(rows: Table, events: seq<SendGridEvent>): seq<EventResult> {
    seq(|events|, i requires 0 <= i < |events| => EventResultIn(rows, events[i]))
  }

  /** `updates` are those of the results that enqueue one, in their order: `at[k]` is the place of the `k`-th. */
  ghost predicate Selects(results: seq<EventResult>, at: seq<nat>, updates: seq<Update>) {
    && |at| == |updates|
    && (forall k, l :: 0 <= k < l < |at| ==> at[k] < at[l])
    && (forall k :: 0 <= k < |at| ==> at[k] < |results| && results[at[k]] == Enqueues(updates[k]))
    && (forall i :: 0 <= i < |results| && results[i].Enqueues? ==> i in at)
  }

  lemma SelectsNext(results: seq<EventResult>, at: seq<nat>, updates: seq<Update>, r: EventResult)
    requires Selects(results, at, updates)
    ensures if r.Enqueues? then Selects(results + [r], at + [|results|], updates + [r.u])
            else Selects(results + [r], at, updates)
  {
    if r.Enqueues? {
      var at' := at + [|results|];
      forall i | 0 <= i < |results + [r]| && (results + [r])[i].Enqueues?
        ensures i in at'
      {
        if i < |results| {
          assert i in at;
        } else {
          assert at'[|at|] == i;
        }
      }
    }
  }

  /** What a batch enqueues, without recursion. */
  lemma {:induction false} EnqueuedInOrder(rows: Table, events: seq<SendGridEvent>) returns (at: seq<nat>)
    ensures Selects(EventResults(rows, events), at, Enqueued(rows, events))
  {
    if events == [] {
      at := [];
    } else {
      var n := |events| - 1;
      var r := EventResultIn(rows, events[n]);
      at := EnqueuedInOrder(rows, events[..n]);
      SelectsNext(EventResults(rows, events[..n]), at, Enqueued(rows, events[..n]), r);
      assert EventResults(rows, events) == EventResults(rows, events[..n]) + [r];
      if r.Enqueues? {
        at := at + [n];
      }
    }
  }

  lemma HandledStep(rows: Table, events: seq<SendGridEvent>, k: nat)
    requires k < |events| && k <= Handled(rows, events)
    ensures if EventResultIn(rows, events[k]).Breaks? then Handled(rows, events) == k else k < Handled(rows, events)
  {
  }

  lemma EnqueuedStep(rows: Table, events: seq<SendGridEvent>, k: nat)
    requires k < |events|
    ensures
      var r := EventResultIn(rows, events[k]);
      Enqueued(rows, events[..k + 1]) == Enqueued(rows, events[..k]) + if r.Enqueues? then [r.u] else []
  {
    assert events[..k + 1][..k] == events[..k];
  }

  lemma LookupUnique(rows: Table, messageId: Option<string>, r: Lookup)
    requires IsLookup(rows, messageId, r)
    ensures r == Find(rows, messageId)
  {
  }

  /** The first handled event that enqueues an update of `id`, or the number of events. */
  function FirstNaming(rows: Table, events: seq<SendGridEvent>, id: Id): (k: nat)
    ensures k <= |events|
    ensures k < |events| ==> EventResultIn(rows, events[k]).Enqueues? && EventResultIn(rows, events[k]).u.id == id
    ensures forall j :: 0 <= j < k ==>
      !(EventResultIn(rows, events[j]).Enqueues? && EventResultIn(rows, events[j]).u.id == id)
  {
    FirstIndex(events, (e: SendGridEvent) => EventResultIn(rows, e).Enqueues? && EventResultIn(rows, e).u.id == id)
  }

  /** A batch and then its tasks in queue order: each non-terminal row named by a handled terminal event ends in the
      verdict of the first such event, and every other row is as before. */
  lemma BatchThenTasks(rows: Table, events: seq<SendGridEvent>, now: Time, id: Id)
    requires id in rows
    ensures
      var handled := events[..Handled(rows, events)];
      var k := FirstNaming(rows, handled, id);
      id in ProcessAll(rows, Enqueued(rows, handled), now) && ProcessAll(rows, Enqueued(rows, handled), now)[id] ==
        if k == |handled| || ToEntity(id, rows[id]).IsTerminal() then rows[id]
        else Judged(rows[id], EventResultIn(rows, handled[k]).u)
  {
    var handled := events[..Handled(rows, events)];
    OnlyFirstUpdateCounts(rows, Enqueued(rows, handled), now, id);
    FirstOfBatch(rows, handled, id);
  }

  lemma {:induction false} FirstOfBatch(rows: Table, events: seq<SendGridEvent>, id: Id)
    ensures
      var updates := Enqueued(rows, events);
      var k := FirstNaming(rows, events, id);
      if k == |events| then FirstFor(updates, id) == |updates|
      else FirstFor(updates, id) < |updates| && updates[FirstFor(updates, id)] == EventResultIn(rows, events[k]).u
  {
    if events == [] {
    } else {
      var n := |events| - 1;
      FirstOfBatch(rows, events[..n], id);
      var r := EventResultIn(rows, events[n]);
      FirstForAppend(Enqueued(rows, events[..n]), if r.Enqueues? then [r.u] else [], id);
      FirstNamingIs(rows, events, id);
    }
  }

  lemma {:induction false} FirstForAppend(a: seq<Update>, b: seq<Update>, id: Id)
    ensures FirstFor(a + b, id) == if FirstFor(a, id) < |a| then FirstFor(a, id) else |a| + FirstFor(b, id)
  {
    var i := FirstFor(a + b, id);
    if FirstFor(a, id) < |a| {
      assert (a + b)[FirstFor(a, id)] == a[FirstFor(a, id)];
      assert i < |a| ==> (a + b)[i] == a[i];
      assert forall j :: 0 <= j < FirstFor(a, id) ==> (a + b)[j] == a[j];
    } else {
      assert forall j :: 0 <= j < |a| ==> (a + b)[j] == a[j];
      assert forall j :: 0 <= j < |b| ==> (a + b)[|a| + j] == b[j];
      assert i >= |a|;
    }
  }

  lemma FirstNamingIs(rows: Table, events: seq<SendGridEvent>, id: Id)
    requires events != []
    ensures
      var n := |events| - 1;
      var k := FirstNaming(rows, events[..n], id);
      var r := EventResultIn(rows, events[n]);
      FirstNaming(rows, events, id) ==
        if k < n then k else if r.Enqueues? && r.u.id == id then n else n + 1
  {
    var n := |events| - 1;
    var k := FirstNaming(rows, events, id);
    assert forall j :: 0 <= j < n ==> events[..n][j] == events[j];
  }

  /** The answer to a final report: accepted for the one row with the message id, 200 without one, 500 for several. */
  ghost predicate Replies(rows: Table, messageId: Option<string>, response: Response) {
    match response
    case AcceptedOne => exists id :: Matches(rows, messageId) == {id}
    case UnknownMessage => Matches(rows, messageId) == {}
    case ServerError => |Matches(rows, messageId)| > 1
    case _ => false
  }

  // ----- Twilio -----

  const TWILIO_DELIVERED := {"delivered", "read"}
  const TWILIO_FAILED := {"failed", "undelivered"}

  datatype TwilioForm = TwilioForm(sid: Option<string>, status: Option<string>, code: Option<string>, message: Option<string>)

  function TwilioStatus(form: TwilioForm): string {
    if form.status.Some? then Text.Lower(form.status.value) else ""
  }

  function TwilioReason(form: TwilioForm): Option<string> {
    if OrElse(form.code, "") == "" then None
    else Some("Twilio [" + form.code.value + "]: " + (if form.message.Some? then form.message.value else "None"))
  }

  predicate ReportsDelivery(form: TwilioForm) {
    form.status.Some? && (Text.Spells(form.status.value, "delivered") || Text.Spells(form.status.value, "read"))
  }

  predicate ReportsFailure(form: TwilioForm) {
    form.status.Some? && (Text.Spells(form.status.value, "failed") || Text.Spells(form.status.value, "undelivered"))
  }

  lemma TwilioStatusMeans(form: TwilioForm)
    ensures TwilioStatus(form) in TWILIO_DELIVERED <==> ReportsDelivery(form)
    ensures TwilioStatus(form) in TWILIO_FAILED <==> ReportsFailure(form)
    ensures TwilioStatus(form) == "" <==> form.status in {None, Some("")}
  {
    if form.status.Some? {
      Text.LowerSpells(form.status.value, "delivered");
      Text.LowerSpells(form.status.value, "read");
      Text.LowerSpells(form.status.value, "failed");
      Text.LowerSpells(form.status.value, "undelivered");
    }
  }

  lemma TwilioReasonMeans(form: TwilioForm)
    ensures form.code in {None, Some("")} ==> TwilioReason(form) == None
    ensures form.code !in {None, Some("")} && form.message.Some? ==>
      TwilioReason(form) == Some("Twilio [" + form.code.value + "]: " + form.message.value)
    ensures form.code !in {None, Some("")} && form.message.None? ==>
      TwilioReason(form) == Some("Twilio [" + form.code.value + "]: None")
  {
    if form.code !in {None, Some("")} {
      assert "Twilio [" + form.code.value + "]: " + "None" == "Twilio [" + form.code.value + "]: None";
    }
  }

  /** One task is enqueued exactly for a final status of a message id that one row carries. */
  method PostTwilio(repository: NotificationRepository, queue: UpdateQueue, form: TwilioForm) returns (response: Response)
    modifies queue
    ensures response.BadRequest? <==> form.sid in {None, Some("")} || form.status in {None, Some("")}
    ensures !response.BadRequest? ==>
      && (response.Ignored? <==> !ReportsDelivery(form) && !ReportsFailure(form))
      && (!response.Ignored? ==> Replies(repository.rows, form.sid, response))
    ensures response.AcceptedOne? ==>
      && |queue.messages| == |old(queue.messages)| + 1
      && var u := queue.messages[|old(queue.messages)|];
      && queue.messages == old(queue.messages) + [u]
      && Matches(repository.rows, form.sid) == {u.id}
      && (u.delivered <==> ReportsDelivery(form))
      && (form.code in {None, Some("")} ==> u.reason == None)
      && (form.code !in {None, Some("")} && form.message.Some? ==>
            u.reason == Some("Twilio [" + form.code.value + "]: " + form.message.value))
      && (form.code !in {None, Some("")} && form.message.None? ==>
            u.reason == Some("Twilio [" + form.code.value + "]: None"))
    ensures !response.AcceptedOne? ==> queue.messages == old(queue.messages)
  {
    TwilioStatusMeans(form);
    TwilioReasonMeans(form);
    var status := TwilioStatus(form);
    if OrElse(form.sid, "") == "" || status == "" {
      return BadRequest;
    }
    if status !in TWILIO_DELIVERED + TWILIO_FAILED {
      return Ignored;
    }
    var lookup := FindNotificationId(repository, form.sid);
    LookupUnique(repository.rows, form.sid, lookup);
    match lookup {
      case NoMatch => return UnknownMessage;
      case MultipleMatches => return ServerError;
      case Found(id) =>
        queue.Delay(Update(id, status in TWILIO_DELIVERED, TwilioReason(form)));
        return AcceptedOne;
    }
  }

  // ----- Resend -----

  const RESEND_DELIVERED := {"email.delivered"}
  const RESEND_FAILED := {"email.bounced", "email.complained", "email.delivery_delayed"}

  datatype ResendEvent = ResendEvent(kind: string, emailId: Option<string>, reason: Option<string>)

  method PostResend(repository: NotificationRepository, queue: UpdateQueue, event: ResendEvent) returns (response: Response)
    modifies queue
    ensures response.BadRequest? <==> event.emailId in {None, Some("")}
    ensures !response.BadRequest? ==>
      && (response.Ignored? <==>
            event.kind !in {"email.delivered", "email.bounced", "email.complained", "email.delivery_delayed"})
      && (!response.Ignored? ==> Replies(repository.rows, event.emailId, response))
    ensures response.AcceptedOne? ==>
      && |queue.messages| == |old(queue.messages)| + 1
      && var u := queue.messages[|old(queue.messages)|];
      && queue.messages == old(queue.messages) + [u]
      && Matches(repository.rows, event.emailId) == {u.id}
      && (u.delivered <==> event.kind == "email.delivered")
      && u.reason == if u.delivered then None else event.reason
    ensures !response.AcceptedOne? ==> queue.messages == old(queue.messages)
  {
    if OrElse(event.emailId, "") == "" {
      return BadRequest;
    }
    if event.kind !in RESEND_DELIVERED + RESEND_FAILED {
      return Ignored;
    }
    var lookup := FindNotificationId(repository, event.emailId);
    LookupUnique(repository.rows, event.emailId, lookup);
    match lookup {
      case NoMatch => return UnknownMessage;
      case MultipleMatches => return ServerError;
      case Found(id) =>
        var delivered := event.kind in RESEND_DELIVERED;
        queue.Delay(Update(id, delivered, if delivered then None else event.reason));
        return AcceptedOne;
    }
  }
}
