/** notifyfork/core/infrastructure/queue/tasks.py: the periodic sweep. */
module QueueTasks {
  import opened Wrappers
  import opened Notifications
  import opened Repository
  import opened SendNotification

  class DispatchQueue {
    var messages: seq<Payload>

    constructor ()
      ensures messages == []
    {
      messages := [];
    }

    method Delay(p: Payload)
      modifies this
      ensures messages == old(messages) + [p]
    {
      messages := messages + [p];
    }
  }

  /** What the sweep sends again: everything but `max_attempts`. */
  function SweepPayload(e: Entity): Payload {
    Payload(e.request, None)
  }

  function Resubmitted(pending: seq<Entity>): (r: seq<Payload>)
    ensures |r| <= |pending|
  {
    if pending == [] then []
    else
      var n := |pending| - 1;
      Resubmitted(pending[..n]) + if pending[n].CanRetry() then [SweepPayload(pending[n])] else []
  }

  /** `sent` is one message, with the request alone, per notification with attempts left, in their order:
      `at[k]` is the place of the `k`-th such notification. */
  ghost predicate Resubmits(pending: seq<Entity>, at: seq<nat>, sent: seq<Payload>) {
    && |at| == |sent|
    && (forall k, l :: 0 <= k < l < |at| ==> at[k] < at[l])
    && (forall k :: 0 <= k < |at| ==>
          at[k] < |pending| && pending[at[k]].attempts < pending[at[k]].maxAttempts
          && sent[k] == Payload(pending[at[k]].request, None))
    && (forall i :: 0 <= i < |pending| && pending[i].attempts < pending[i].maxAttempts ==> i in at)
  }

  lemma ResubmitsNext(pending: seq<Entity>, at: seq<nat>, sent: seq<Payload>, e: Entity)
    requires Resubmits(pending, at, sent)
    ensures if e.attempts < e.maxAttempts then Resubmits(pending + [e], at + [|pending|], sent + [Payload(e.request, None)])
            else Resubmits(pending + [e], at, sent)
  {
    if e.attempts < e.maxAttempts {
      var at' := at + [|pending|];
      forall i | 0 <= i < |pending + [e]| && (pending + [e])[i].attempts < (pending + [e])[i].maxAttempts
        ensures i in at'
      {
        if i < |pending| {
          assert i in at;
        } else {
          assert at'[|at|] == i;
        }
      }
    }
  }

  /** What the loop of the sweep sends, without recursion. */
  lemma {:induction false} ResubmittedInOrder(pending: seq<Entity>) returns (at: seq<nat>)
    ensures Resubmits(pending, at, Resubmitted(pending))
  {
    if pending == [] {
      at := [];
    } else {
      var n := |pending| - 1;
      at := ResubmittedInOrder(pending[..n]);
      ResubmitsNext(pending[..n], at, Resubmitted(pending[..n]), pending[n]);
      assert pending == pending[..n] + [pending[n]];
      if pending[n].attempts < pending[n].maxAttempts {
        at := at + [n];
      }
    }
  }

  lemma ResubmittedStep(pending: seq<Entity>, k: nat)
    requires k < |pending|
    ensures Resubmitted(pending[..k + 1])
         == Resubmitted(pending[..k]) + if pending[k].CanRetry() then [SweepPayload(pending[k])] else []
  {
    assert pending[..k + 1][..k] == pending[..k];
  }

  lemma {:induction false} ResubmittedAll(pending: seq<Entity>)
    requires forall k :: 0 <= k < |pending| ==> pending[k].CanRetry()
    ensures Resubmitted(pending) == seq(|pending|, k requires 0 <= k < |pending| => SweepPayload(pending[k]))
  {
    if pending == [] {
    } else {
      ResubmittedAll(pending[..|pending| - 1]);
    }
  }

  method RetryPendingNotifications(repository: NotificationRepository, queue: DispatchQueue, limit: nat, answer: seq<Id>)
    returns (retried: nat)
    requires IsOldest(repository.rows, answer, limit)
    modifies queue
    ensures queue.messages == old(queue.messages) + Resubmitted(Entities(repository.rows, answer))
    ensures retried == |Resubmitted(Entities(repository.rows, answer))|
  {
    var pending := repository.GetPendingRetries(limit, answer);
    retried := Resubmit(queue, pending, Entities(repository.rows, answer));
  }

  /** The loop of the sweep; `entities` are the values of the notifications. */
  method Resubmit(queue: DispatchQueue, pending: seq<Notification>, ghost entities: seq<Entity>) returns (queued: nat)
    requires |pending| == |entities| && forall k :: 0 <= k < |pending| ==> pending[k].Value() == entities[k]
    modifies queue
    ensures queue.messages == old(queue.messages) + Resubmitted(entities)
    ensures queued == |Resubmitted(entities)|
  {
    queued := 0;
    for k := 0 to |pending|
      invariant queue.messages == old(queue.messages) + Resubmitted(entities[..k])
      invariant queued == |Resubmitted(entities[..k])|
    {
      ResubmittedStep(entities, k);
      var notification := pending[k];
      assert notification.Value() == entities[k];
      if notification.Value().CanRetry() {
        queue.Delay(Payload(notification.request, None));
        queued := queued + 1;
      }
    }
    assert entities[..|pending|] == entities;
  }
}
