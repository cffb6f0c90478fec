/** notifyfork/core/infrastructure/repositories/notification_repository.py over the table
    declared in notifyfork/core/infrastructure/models/notification_model.py. */
module Repository {
  import opened Wrappers
  import opened Notifications

  datatype Row = Row(
    request: Request,
    status: Status,
    providerUsed: Option<string>,
    messageId: Option<string>,
    attempts: int,
    maxAttempts: int,
    errorDetail: Option<string>,
    createdAt: Time,
    sentAt: Option<Time>,
    deliveredAt: Option<Time>)

  type Table = map<Id, Row>

  /** How one statement against the database ends: an exception may come before or after the commit. */
  datatype Db = Commits | FailsBeforeCommit | FailsAfterCommit

  /** The row `save` leaves for an entity: the columns it lists, and the two it does not. */
  function RowOf(e: Entity, createdAt: Time, deliveredAt: Option<Time>): Row {
    Row(e.request, e.status, e.providerUsed, e.messageId, e.attempts, e.maxAttempts, e.errorDetail,
        createdAt, e.sentAt, deliveredAt)
  }

  /** `aupdate_or_create`: an existing row keeps `created_at` and `delivered_at`,
      a new one is stamped with the database's own insertion time. */
  function Store(rows: Table, e: Entity, now: Time): Table {
    if e.id in rows
    then rows[e.id := RowOf(e, rows[e.id].createdAt, rows[e.id].deliveredAt)]
    else rows[e.id := RowOf(e, now, None)]
  }

  function StoreWith(rows: Table, e: Entity, now: Time, db: Db): Table {
    if db.FailsBeforeCommit? then rows else Store(rows, e, now)
  }

  function ToEntity(id: Id, row: Row): Entity {
    Entity(id, row.request, row.status, row.providerUsed, row.messageId, row.attempts, row.maxAttempts,
           row.errorDetail, row.createdAt, row.sentAt, None)
  }

  function Load(rows: Table, id: Id): Option<Entity> {
    if id in rows then Some(ToEntity(id, rows[id])) else None
  }

  // ----- history of saves -----

  datatype Write = Write(e: Entity, now: Time)

  function StoreAll(rows: Table, writes: seq<Write>): Table {
    if writes == [] then rows
    else
      var last := writes[|writes| - 1];
      Store(StoreAll(rows, writes[..|writes| - 1]), last.e, last.now)
  }

  function FirstWrite(writes: seq<Write>, id: Id): (i: nat)
    ensures i <= |writes|
    ensures i < |writes| ==> writes[i].e.id == id
    ensures forall j :: 0 <= j < i ==> writes[j].e.id != id
  {
    FirstIndex(writes, (w: Write) => w.e.id == id)
  }

  function LastWrite(writes: seq<Write>, id: Id): (i: int)
    ensures -1 <= i < |writes|
    ensures i >= 0 ==> writes[i].e.id == id
    ensures forall j :: i < j < |writes| ==> writes[j].e.id != id
  {
    if writes == [] then -1
    else
      var n := |writes| - 1;
      if writes[n].e.id == id then n
      else
        var i := LastWrite(writes[..n], id);
        assert forall j :: i < j < n ==> writes[..n][j] == writes[j];
        i
  }

  /** What a reader sees after any history of saves: the last save of that id, created at its first save,
      never a delivery time; saves of other ids do not matter. */
  lemma {:induction false} LoadAfterHistory(writes: seq<Write>, id: Id)
    ensures Load(StoreAll(map[], writes), id) ==
      var last := LastWrite(writes, id);
      if last < 0 then None
      else Some(writes[last].e.(createdAt := writes[FirstWrite(writes, id)].now, deliveredAt := None))
    ensures id in StoreAll(map[], writes) ==> StoreAll(map[], writes)[id].deliveredAt == None
  {
    if writes == [] {
    } else {
      var n := |writes| - 1;
      LoadAfterHistory(writes[..n], id);
      FirstWriteOfPrefix(writes, id);
    }
  }

  lemma {:induction false} FirstWriteOfPrefix(writes: seq<Write>, id: Id)
    requires writes != []
    ensures FirstWrite(writes[..|writes| - 1], id) == Min(FirstWrite(writes, id), |writes| - 1)
  {
  }

  // ----- the sweep's query -----

  function RetryingIds(rows: Table): set<Id> {
    set id | id in rows && rows[id].status.Retrying?
  }

  /** An answer of `filter(status=RETRYING).order_by("created_at")[:limit]`. Equal times may come in any order. */
  ghost predicate IsOldest(rows: Table, ids: seq<Id>, limit: nat) {
    && |ids| == Min(limit, |RetryingIds(rows)|)
    && (forall i, j :: 0 <= i < j < |ids| ==> ids[i] != ids[j])
    && (forall i :: 0 <= i < |ids| ==> ids[i] in RetryingIds(rows))
    && (forall i, j :: 0 <= i < j < |ids| ==> rows[ids[i]].createdAt <= rows[ids[j]].createdAt)
    && (forall i, id :: 0 <= i < |ids| && id in RetryingIds(rows) && id !in ids ==>
          rows[ids[i]].createdAt <= rows[id].createdAt)
  }

  function Entities(rows: Table, ids: seq<Id>): seq<Entity>
    requires forall i :: 0 <= i < |ids| ==> ids[i] in rows
  {
    seq(|ids|, i requires 0 <= i < |ids| => ToEntity(ids[i], rows[ids[i]]))
  }

  function Before(rows: Table, s: set<Id>, time: Time): set<Id>
    requires s <= rows.Keys
  {
    set id | id in s && rows[id].createdAt < time
  }

  /** The rows the query puts strictly before a row created at `time`. */
  function RetryingBefore(rows: Table, time: Time): set<Id> {
    Before(rows, RetryingIds(rows), time)
  }

  function Elements(ids: seq<Id>): set<Id> {
    set id | id in ids
  }

  lemma DistinctSize(ids: seq<Id>)
    requires forall i, j :: 0 <= i < j < |ids| ==> ids[i] != ids[j]
    ensures |Elements(ids)| == |ids|
  {
    if ids == [] {
    } else {
      var n := |ids| - 1;
      DistinctSize(ids[..n]);
      assert Elements(ids) == Elements(ids[..n]) + {ids[n]};
    }
  }

  lemma SubsetSize(a: set<Id>, b: set<Id>)
    requires a <= b
    ensures |a| <= |b|
  {
    if a != {} {
      var x :| x in a;
      SubsetSize(a - {x}, b - {x});
    }
  }

  /** Whatever is in an answer has fewer strictly older RETRYING rows than the answer has places. */
  lemma PickedHasFewOlder(rows: Table, ids: seq<Id>, limit: nat, k: nat)
    requires IsOldest(rows, ids, limit) && k < |ids|
    ensures |RetryingBefore(rows, rows[ids[k]].createdAt)| < |ids| <= limit
  {
    var older := RetryingBefore(rows, rows[ids[k]].createdAt);
    DistinctSize(ids);
    forall x | x in older
      ensures x in Elements(ids) - {ids[k]}
    {
      assert !(rows[ids[k]].createdAt <= rows[x].createdAt);
    }
    SubsetSize(older, Elements(ids) - {ids[k]});
    assert ids[k] in Elements(ids);
  }

  ghost predicate IsMinimal(rows: Table, s: set<Id>, x: Id)
    requires s <= rows.Keys
  {
    x in s && forall y :: y in s ==> rows[x].createdAt <= rows[y].createdAt
  }

  lemma MinimalExists(rows: Table, s: set<Id>) returns (x: Id)
    requires s <= rows.Keys && s != {}
    ensures IsMinimal(rows, s, x)
  {
    x :| x in s;
    if s != {x} {
      assert s == s - {x} + {x};
      var y := MinimalExists(rows, s - {x});
      if rows[y].createdAt < rows[x].createdAt {
        x := y;
      }
    }
  }

  /** Picks `limit` oldest rows of `s`, taking `favourite` as soon as it is among the oldest left. */
  lemma {:induction false} PickOldest(rows: Table, s: set<Id>, limit: nat, favourite: Id) returns (ids: seq<Id>)
    requires s <= RetryingIds(rows)
    ensures |ids| == Min(limit, |s|)
    ensures forall i, j :: 0 <= i < j < |ids| ==> ids[i] != ids[j]
    ensures forall i :: 0 <= i < |ids| ==> ids[i] in s
    ensures forall i, j :: 0 <= i < j < |ids| ==> rows[ids[i]].createdAt <= rows[ids[j]].createdAt
    ensures forall i, id :: 0 <= i < |ids| && id in s && id !in ids ==> rows[ids[i]].createdAt <= rows[id].createdAt
    ensures favourite in s && |Before(rows, s, rows[favourite].createdAt)| < limit ==> favourite in ids
    decreases limit
  {
    if limit == 0 || s == {} {
      ids := [];
    } else {
      var x := MinimalExists(rows, s);
      if favourite in s && IsMinimal(rows, s, favourite) {
        x := favourite;
      }
      var rest := PickOldest(rows, s - {x}, limit - 1, favourite);
      ids := [x] + rest;
      if favourite in s && x != favourite {
        var time := rows[favourite].createdAt;
        assert x in Before(rows, s, time);
        assert Before(rows, s - {x}, time) == Before(rows, s, time) - {x};
      }
    }
  }

  /** A RETRYING row can be picked by a sweep exactly when fewer than `limit` RETRYING rows are strictly older. */
  lemma PickableIff(rows: Table, limit: nat, id: Id)
    requires id in RetryingIds(rows)
    ensures (exists ids :: IsOldest(rows, ids, limit) && id in ids)
       <==> |RetryingBefore(rows, rows[id].createdAt)| < limit
  {
    if |RetryingBefore(rows, rows[id].createdAt)| < limit {
      var ids := PickOldest(rows, RetryingIds(rows), limit, id);
      assert IsOldest(rows, ids, limit);
    } else {
      forall ids | IsOldest(rows, ids, limit)
        ensures id !in ids
      {
        if k: nat :| k < |ids| && ids[k] == id {
          PickedHasFewOlder(rows, ids, limit, k);
        }
      }
    }
  }

  /** Every table has an answer to the query. */
  lemma OldestExists(rows: Table, limit: nat) returns (ids: seq<Id>)
    ensures IsOldest(rows, ids, limit)
  {
    ids := PickOldest(rows, RetryingIds(rows), limit, 0);
  }

  class NotificationRepository {
    var rows: Table

    constructor ()
      ensures rows == map[]
    {
      rows := map[];
    }

    /** `db` is how the statement ends; `ok` is false when it raises. */
    method Save(n: Notification, now: Time, db: Db) returns (ok: bool)
      modifies this
      ensures rows == StoreWith(old(rows), n.Value(), now, db)
      ensures ok == db.Commits?
    {
      if !db.FailsBeforeCommit? {
        if n.id in rows {
          var row := rows[n.id];
          rows := rows[n.id := row.(request := n.request, status := n.status, providerUsed := n.providerUsed,
            messageId := n.messageId, attempts := n.attempts, maxAttempts := n.maxAttempts,
            errorDetail := n.errorDetail, sentAt := n.sentAt)];
        } else {
          rows := rows[n.id := Row(n.request, n.status, n.providerUsed, n.messageId, n.attempts, n.maxAttempts,
            n.errorDetail, now, n.sentAt, None)];
        }
      }
      ok := db.Commits?;
    }

    method GetById(id: Id) returns (n: Notification?)
      ensures n == null <==> Load(rows, id).None?
      ensures n != null ==> fresh(n) && Load(rows, id) == Some(n.Value())
    {
      if id in rows {
        n := new Notification.Load(ToEntity(id, rows[id]));
      } else {
        n := null;
      }
    }

    /** `answer` is what the database returns for the query; the loop is the comprehension over it. */
    method GetPendingRetries(limit: nat, answer: seq<Id>) returns (pending: seq<Notification>)
      requires IsOldest(rows, answer, limit)
      ensures |pending| == |answer|
      ensures forall i :: 0 <= i < |pending| ==>
        && fresh(pending[i])
        && pending[i].Value() == ToEntity(answer[i], rows[answer[i]]) == Entities(rows, answer)[i]
    {
      pending := [];
      for i := 0 to |answer|
        invariant |pending| == i
        invariant forall k :: 0 <= k < i ==>
          fresh(pending[k]) && pending[k].Value() == Entities(rows, answer)[k]
      {
        var n := new Notification.Load(ToEntity(answer[i], rows[answer[i]]));
        pending := pending + [n];
      }
    }
  }
}
