/** notifyfork/core/domain/entities/notification.py: the entity and its state machine. */
module Notifications {
  import opened Wrappers

  type Id = nat
  type Time = int

  /** A Python dict: insertion-ordered entries. */
  type Context = seq<(string, string)>

  datatype Status = Pending | Queued | Sent | Delivered | DeliveryFailed | Failed | Retrying

  predicate Terminal(status: Status) {
    status.Delivered? || status.DeliveryFailed? || status.Failed?
  }

  /** What the caller asked for; no operation of the entity changes it. */
  datatype Request = Request(
    recipient: string,
    channel: string,
    notificationType: string,
    templateId: string,
    context: Context)

  /** The value of a notification at one moment. */
  datatype Entity = Entity(
    id: Id,
    request: Request,
    status: Status,
    providerUsed: Option<string>,
    messageId: Option<string>,
    attempts: int,
    maxAttempts: int,
    errorDetail: Option<string>,
    createdAt: Time,
    sentAt: Option<Time>,
    deliveredAt: Option<Time>)
  {
    predicate IsTerminal() {
      Terminal(status)
    }

    predicate CanRetry() {
      attempts < maxAttempts
    }

    function Queue(): Entity {
      this.(status := Queued)
    }

    function Send(provider: string, externalId: Option<string>, now: Time): Entity {
      this.(status := Sent, providerUsed := Some(provider), messageId := externalId, sentAt := Some(now))
    }

    function Deliver(now: Time): Entity {
      this.(status := Delivered, deliveredAt := Some(now))
    }

    function FailDelivery(reason: string): Entity {
      this.(status := DeliveryFailed, errorDetail := Some(reason))
    }

    function Fail(reason: string): Entity {
      this.(attempts := attempts + 1,
            errorDetail := Some(reason),
            status := if attempts + 1 >= maxAttempts then Failed else Retrying)
    }
  }

  function New(id: Id, request: Request, maxAttempts: int, now: Time): Entity {
    Entity(id, request, Pending, None, None, 0, maxAttempts, None, now, None, None)
  }

  class Notification {
    const id: Id
    const request: Request
    const maxAttempts: int
    const createdAt: Time
    var status: Status
    var providerUsed: Option<string>
    var messageId: Option<string>
    var attempts: int
    var errorDetail: Option<string>
    var sentAt: Option<Time>
    var deliveredAt: Option<Time>

    function Value(): Entity
      reads this
    {
      Entity(id, request, status, providerUsed, messageId, attempts, maxAttempts, errorDetail,
             createdAt, sentAt, deliveredAt)
    }

    constructor (id: Id, request: Request, maxAttempts: int, now: Time)
      ensures Value() == New(id, request, maxAttempts, now)
      ensures this.id == id && this.request == request && this.maxAttempts == maxAttempts && createdAt == now
      ensures status.Pending? && attempts == 0 && providerUsed == None && messageId == None
      ensures errorDetail == None && sentAt == None && deliveredAt == None
    {
      this.id, this.request, this.maxAttempts, this.createdAt := id, request, maxAttempts, now;
      status, providerUsed, messageId, attempts := Pending, None, None, 0;
      errorDetail, sentAt, deliveredAt := None, None, None;
    }

    /** The constructor call in `_to_entity`: every field given but the delivery time. */
    constructor Load(e: Entity)
      ensures Value() == e.(deliveredAt := None)
    {
      id, request, maxAttempts, createdAt := e.id, e.request, e.maxAttempts, e.createdAt;
      status, providerUsed, messageId, attempts := e.status, e.providerUsed, e.messageId, e.attempts;
      errorDetail, sentAt, deliveredAt := e.errorDetail, e.sentAt, None;
    }

    method MarkQueued()
      modifies this
      ensures Value() == old(Value()).Queue() == old(Value()).(status := Queued)
    {
      status := Queued;
    }

    method MarkSent(provider: string, externalId: Option<string>, now: Time)
      modifies this
      ensures Value() == old(Value()).Send(provider, externalId, now)
      ensures status.Sent? && providerUsed == Some(provider) && messageId == externalId && sentAt == Some(now)
      ensures attempts == old(attempts) && errorDetail == old(errorDetail) && deliveredAt == old(deliveredAt)
    {
      status := Sent;
      providerUsed := Some(provider);
      messageId := externalId;
      sentAt := Some(now);
    }

    /** `warned` is the log line for a notification that was not SENT. */
    method MarkDelivered(now: Time) returns (warned: bool)
      modifies this
      ensures Value() == old(Value()).Deliver(now)
      ensures status.Delivered? && deliveredAt == Some(now) && errorDetail == old(errorDetail) && attempts == old(attempts)
      ensures providerUsed == old(providerUsed) && messageId == old(messageId) && sentAt == old(sentAt)
      ensures warned <==> !old(status).Sent?
    {
      warned := !status.Sent?;
      status := Delivered;
      deliveredAt := Some(now);
    }

    method MarkDeliveryFailed(reason: string)
      modifies this
      ensures Value() == old(Value()).FailDelivery(reason)
      ensures status.DeliveryFailed? && errorDetail == Some(reason) && attempts == old(attempts)
      ensures providerUsed == old(providerUsed) && messageId == old(messageId) && sentAt == old(sentAt)
      ensures deliveredAt == old(deliveredAt)
    {
      status := DeliveryFailed;
      errorDetail := Some(reason);
    }

    method MarkFailed(reason: string)
      modifies this
      ensures Value() == old(Value()).Fail(reason)
      ensures attempts == old(attempts) + 1 && errorDetail == Some(reason)
      ensures if attempts < maxAttempts then status.Retrying? else status.Failed?
      ensures providerUsed == old(providerUsed) && messageId == old(messageId) && sentAt == old(sentAt)
      ensures deliveredAt == old(deliveredAt)
    {
      attempts := attempts + 1;
      errorDetail := Some(reason);
      if attempts >= maxAttempts {
        status := Failed;
      } else {
        status := Retrying;
      }
    }
  }
}
