/** The outbox tables, webhook_deliveries and notifications, which share one shape. */
module OutboxStore {
  import opened Prelude
  import opened Backoff
  import opened Selection

  type RowId = nat

  datatype Status = Pending | Delivered | DeadLetter

  datatype Row = Row(status: Status, attempts: int, maxAttempts: int, scheduledAt: int, createdAt: int,
                     deliveredAt: Option<int>, lastError: Option<string>)

  type Table = map<RowId, Row>

  /** How long a claimed row stays invisible to other claims. */
  const WINDOW := 60 * SECOND

  predicate Due(row: Row, now: int) {
    row.status == Pending && row.scheduledAt <= now
  }

  function Enqueued(maxAttempts: int, now: int): Row {
    Row(Pending, 0, maxAttempts, now, now, None, None)
  }

  function Claimed(row: Row, now: int): Row {
    row.(attempts := row.attempts + 1, scheduledAt := now + WINDOW)
  }

  function Sent(row: Row, now: int): Row {
    row.(status := Delivered, deliveredAt := Some(now), lastError := None)
  }

  /** Decided from the worker's copy of the row. */
  function Failed(row: Row, record: Row, now: int, message: string): Row {
    var exhausted := record.attempts >= record.maxAttempts;
    row.(status := if exhausted then DeadLetter else Pending,
         scheduledAt := if exhausted then now else now + Delay(record.attempts),
         lastError := Some(message))
  }

  function Renewed(row: Row, now: int): Row {
    row.(status := Pending, attempts := 0, scheduledAt := now, deliveredAt := None, lastError := None)
  }

  function ClaimBatch(rows: Table, ids: set<RowId>, now: int): Table {
    map id | id in rows :: if id in ids then Claimed(rows[id], now) else rows[id]
  }

  datatype Redelivery = Requeued(row: Row) | Conflict | NotFound

  datatype Owner = Owner(tenant: nat, webhook: nat)

  datatype Webhook = Webhook(tenant: nat, isActive: bool, events: set<string>)

  /** The tenant's active webhooks that listen to `event`. */
  function Listeners(hooks: map<nat, Webhook>, tenant: nat, event: string): set<nat> {
    set w | w in hooks && hooks[w].tenant == tenant && hooks[w].isActive && event in hooks[w].events
  }

  /** When each row is scheduled that a claim statement may take: due, and not locked by another. */
  function Free(rows: Table, locked: set<RowId>, now: int): map<RowId, int> {
    map id | id in rows && id !in locked && Due(rows[id], now) :: rows[id].scheduledAt
  }

  /** Each of a set of webhooks once, in whatever order the database reads them. */
  method ReadOnce(hooks: set<nat>) returns (order: seq<nat>)
    ensures Elements(order) == hooks && |order| == |hooks|
    ensures forall i, j :: 0 <= i < j < |order| ==> order[i] != order[j]
  {
    var at := map w | w in hooks :: w;
    assert at.Keys == hooks && |at| == |at.Keys|;
    order := SelectLowest(at, |at|);
    LowestIsAll(at, |at|, order);
  }

  /** Whatever could have been claimed and was not is due no earlier than all that was. */
  lemma LeftOutIsLater(rows: Table, locked: set<RowId>, limit: nat, now: int, chosen: seq<RowId>)
    requires Lowest(Free(rows, locked, now), limit, chosen)
    ensures |Elements(chosen)| == |chosen|
    ensures forall id :: id in rows && id !in chosen && id !in locked
                         && rows[id].status == Pending && rows[id].scheduledAt <= now ==>
      |chosen| == limit
      && forall other :: other in chosen ==> other in rows && rows[other].scheduledAt <= rows[id].scheduledAt
  {
    DistinctSize(chosen);
    var free := Free(rows, locked, now);
    assert forall other :: other in chosen ==> other in free;
    forall id | id in rows && id !in chosen && id !in locked
                && rows[id].status == Pending && rows[id].scheduledAt <= now
      ensures |chosen| == limit
      ensures forall other :: other in chosen ==> other in rows && rows[other].scheduledAt <= rows[id].scheduledAt
    {
      assert id in free;
    }
  }

  /** `after` is `before` with a new pending row under each of `ids`, and nothing else. */
  ghost predicate DueRowsAdded(before: Table, after: Table, ids: seq<RowId>, maxAttempts: int, now: int) {
    && (forall id :: id in after <==> id in before || id in ids)
    && (forall id :: id in after ==> after[id] == if id in before then before[id] else Enqueued(maxAttempts, now))
  }

  /** `after` is `before` with `ids[i]` owned by the tenant's webhook `targets[i]`, and nothing else. */
  ghost predicate OwnersAdded(before: map<RowId, Owner>, after: map<RowId, Owner>, ids: seq<RowId>,
                              tenant: nat, targets: seq<nat>)
    requires |ids| == |targets|
  {
    && (forall id :: id in after <==> id in before || id in ids)
    && (forall id :: id in before ==> id in after && after[id] == before[id])
    && (forall i :: 0 <= i < |ids| ==> ids[i] in after && after[ids[i]] == Owner(tenant, targets[i]))
  }

  lemma EachHasItsOwn(before: Table, rows: Table, owners: map<RowId, Owner>, supply: seq<RowId>, targets: seq<nat>,
                      tenant: nat, maxAttempts: int, now: int)
    requires |targets| <= |supply| && DueRowsAdded(before, rows, supply[..|targets|], maxAttempts, now)
    requires forall i :: 0 <= i < |supply| ==> supply[i] !in before
    requires forall i :: 0 <= i < |targets| ==>
      supply[..|targets|][i] in owners && owners[supply[..|targets|][i]] == Owner(tenant, targets[i])
    ensures forall i :: 0 <= i < |targets| ==>
      && supply[i] in rows && rows[supply[i]] == Row(Pending, 0, maxAttempts, now, now, None, None)
      && supply[i] in owners && owners[supply[i]] == Owner(tenant, targets[i])
  {
    forall i | 0 <= i < |targets|
      ensures supply[i] in rows && rows[supply[i]] == Row(Pending, 0, maxAttempts, now, now, None, None)
      ensures supply[i] in owners && owners[supply[i]] == Owner(tenant, targets[i])
    {
      assert supply[..|targets|][i] == supply[i] && supply[i] in supply[..|targets|];
    }
  }

  lemma OneMoreRow(before: Table, after: Table, ids: seq<RowId>, id: RowId, maxAttempts: int, now: int)
    requires DueRowsAdded(before, after, ids, maxAttempts, now) && id !in before && id !in ids
    ensures DueRowsAdded(before, after[id := Enqueued(maxAttempts, now)], ids + [id], maxAttempts, now)
  {
  }

  lemma OneMoreOwner(before: map<RowId, Owner>, after: map<RowId, Owner>, ids: seq<RowId>, id: RowId,
                     tenant: nat, targets: seq<nat>, w: nat)
    requires |ids| == |targets| && id !in before && id !in ids && OwnersAdded(before, after, ids, tenant, targets)
    ensures OwnersAdded(before, after[id := Owner(tenant, w)], ids + [id], tenant, targets + [w])
  {
  }

  /** FOR UPDATE SKIP LOCKED: the earliest due rows nobody else has locked, as many as the limit allows. */
  method ChooseRows(rows: Table, locked: set<RowId>, limit: nat, now: int) returns (ids: set<RowId>)
    ensures exists order: seq<RowId> :: Lowest(Free(rows, locked, now), limit, order) && Elements(order) == ids
    ensures |ids| <= limit && ids <= rows.Keys && ids !! locked
    ensures forall id :: id in ids ==> rows[id].status == Pending && rows[id].scheduledAt <= now
    ensures forall id :: id in rows && id !in ids && id !in locked
                         && rows[id].status == Pending && rows[id].scheduledAt <= now ==>
      |ids| == limit && forall other :: other in ids ==> rows[other].scheduledAt <= rows[id].scheduledAt
  {
    var order := SelectLowest(Free(rows, locked, now), limit);
    ChosenAreFree(rows, locked, limit, now, order);
    LeftOutIsLater(rows, locked, limit, now, order);
    ids := Elements(order);
    assert forall id :: id in ids <==> id in order;
  }

  lemma ChosenAreFree(rows: Table, locked: set<RowId>, limit: nat, now: int, chosen: seq<RowId>)
    requires Lowest(Free(rows, locked, now), limit, chosen)
    ensures |Elements(chosen)| == Min(limit, |Free(rows, locked, now)|)
    ensures forall id :: id in Elements(chosen) ==> id in rows && id !in locked && Due(rows[id], now)
  {
    LowestIsAll(Free(rows, locked, now), limit, chosen);
    DistinctSize(chosen);
    forall id | id in Elements(chosen)
      ensures id in Free(rows, locked, now)
    {
      var i :| 0 <= i < |chosen| && chosen[i] == id;
    }
  }

  class Outbox {
    var rows: Table
    var owners: map<RowId, Owner>

    constructor ()
      ensures rows == map[] && owners == map[]
    {
      rows, owners := map[], map[];
    }

    /** INSERT ... SELECT: for each listening webhook, once, a new pending row that it owns. */
    method EnqueueWebhookDeliveries(hooks: map<nat, Webhook>, tenant: nat, event: string, supply: seq<RowId>,
                                    maxAttempts: int, now: int)
      returns (targets: seq<nat>)
      requires |supply| >= |Listeners(hooks, tenant, event)|
      requires forall i, j :: 0 <= i < j < |supply| ==> supply[i] != supply[j]
      requires forall i :: 0 <= i < |supply| ==> supply[i] !in rows && supply[i] !in owners
      modifies this
      ensures |targets| == |Listeners(hooks, tenant, event)|
      ensures forall w :: w in targets <==>
        w in hooks && hooks[w].tenant == tenant && hooks[w].isActive && event in hooks[w].events
      ensures forall i, j :: 0 <= i < j < |targets| ==> targets[i] != targets[j]
      ensures DueRowsAdded(old(rows), rows, supply[..|targets|], maxAttempts, now)
      ensures OwnersAdded(old(owners), owners, supply[..|targets|], tenant, targets)
      ensures forall i :: 0 <= i < |targets| ==>
        && supply[i] in rows && rows[supply[i]] == Row(Pending, 0, maxAttempts, now, now, None, None)
        && supply[i] in owners && owners[supply[i]] == Owner(tenant, targets[i])
      ensures forall id :: id in rows && id !in supply[..|targets|] ==> id in old(rows) && rows[id] == old(rows)[id]
      ensures forall id :: id in old(rows) ==> id in rows && rows[id] == old(rows)[id]
    {
      targets := ReadOnce(Listeners(hooks, tenant, event));
      assert forall w :: w in targets <==> w in Elements(targets);
      for k := 0 to |targets|
        invariant DueRowsAdded(old(rows), rows, supply[..k], maxAttempts, now)
        invariant OwnersAdded(old(owners), owners, supply[..k], tenant, targets[..k])
      {
        assert supply[..k + 1] == supply[..k] + [supply[k]] && targets[..k + 1] == targets[..k] + [targets[k]];
        OneMoreRow(old(rows), rows, supply[..k], supply[k], maxAttempts, now);
        OneMoreOwner(old(owners), owners, supply[..k], supply[k], tenant, targets[..k], targets[k]);
        rows := rows[supply[k] := Row(Pending, 0, maxAttempts, now, now, None, None)];
        owners := owners[supply[k] := Owner(tenant, targets[k])];
      }
      assert targets[..|targets|] == targets;
      EachHasItsOwn(old(rows), rows, owners, supply, targets, tenant, maxAttempts, now);
    }

    /**
     The claim statement while other statements hold locks on `locked`: the earliest due rows it can
     have, up to the limit. `RETURNING` hands back each row as updated.
     */
    method ClaimPending(locked: set<RowId>, limit: nat, now: int) returns (batch: map<RowId, Row>)
      modifies this`rows
      ensures |batch| <= limit && rows == ClaimBatch(old(rows), batch.Keys, now) && rows.Keys == old(rows).Keys
      ensures forall id :: id in batch ==>
        id in old(rows) && id !in locked && old(rows)[id].status == Pending && old(rows)[id].scheduledAt <= now
      ensures forall id :: id in old(rows) && id !in batch && id !in locked
                           && old(rows)[id].status == Pending && old(rows)[id].scheduledAt <= now ==>
        |batch| == limit && forall other :: other in batch ==> old(rows)[other].scheduledAt <= old(rows)[id].scheduledAt
      ensures forall id :: id in batch ==>
        batch[id] == rows[id]
                  == old(rows)[id].(attempts := old(rows)[id].attempts + 1, scheduledAt := now + 60 * 1000)
      ensures forall id :: id in rows && id !in batch ==> rows[id] == old(rows)[id]
    {
      var ids := ChooseRows(rows, locked, limit, now);
      rows := map id | id in rows ::
        if id in ids then rows[id].(attempts := rows[id].attempts + 1, scheduledAt := now + 60 * SECOND) else rows[id];
      batch := map id | id in ids :: rows[id];
      assert batch.Keys == ids && |batch| == |batch.Keys|;
    }

    method MarkDelivered(id: RowId, now: int)
      modifies this`rows
      ensures rows == if id in old(rows) then old(rows)[id := Sent(old(rows)[id], now)] else old(rows)
      ensures id in old(rows) ==>
        rows[id] == old(rows)[id].(status := Delivered, deliveredAt := Some(now), lastError := None)
    {
      if id in rows {
        rows := rows[id := rows[id].(status := Delivered, deliveredAt := Some(now), lastError := None)];
      }
    }

    method Fail(id: RowId, record: Row, now: int, message: string)
      modifies this`rows
      ensures rows == if id in old(rows) then old(rows)[id := Failed(old(rows)[id], record, now, message)]
        else old(rows)
      ensures id in old(rows) && record.attempts >= record.maxAttempts ==>
        rows[id] == old(rows)[id].(status := DeadLetter, scheduledAt := now, lastError := Some(message))
      ensures id in old(rows) && record.attempts < record.maxAttempts ==>
        rows[id] == old(rows)[id].(status := Pending, scheduledAt := now + Delay(record.attempts),
                                   lastError := Some(message))
    {
      var status := if record.attempts >= record.maxAttempts then DeadLetter else Pending;
      var nextTime := if status == DeadLetter then now else now + Delay(record.attempts);
      if id in rows {
        rows := rows[id := rows[id].(status := status, scheduledAt := nextTime, lastError := Some(message))];
      }
    }

    predicate Owns(tenant: nat, webhook: nat, id: RowId)
      reads this
    {
      id in rows && id in owners && owners[id] == Owner(tenant, webhook)
    }

    /** A finished delivery of this tenant's webhook starts over; a pending one is left alone. */
    method Redeliver(tenant: nat, webhook: nat, id: RowId, now: int) returns (r: Redelivery)
      modifies this`rows
      ensures r.NotFound? <==> !(id in old(rows) && id in owners && owners[id] == Owner(tenant, webhook))
      ensures r.Conflict? <==> !r.NotFound? && old(rows)[id].status == Pending
      ensures r.Requeued? ==> r.row == Renewed(old(rows)[id], now) && rows == old(rows)[id := r.row]
      ensures r.Requeued? ==>
        r.row == old(rows)[id].(status := Pending, attempts := 0, scheduledAt := now, deliveredAt := None,
                                lastError := None)
      ensures !r.Requeued? ==> rows == old(rows)
    {
      if Owns(tenant, webhook, id) && (rows[id].status == Delivered || rows[id].status == DeadLetter) {
        rows := rows[id := rows[id].(status := Pending, attempts := 0, scheduledAt := now,
                                     deliveredAt := None, lastError := None)];
        return Requeued(rows[id]);
      }
      r := if Owns(tenant, webhook, id) then Conflict else NotFound;
    }

    /**
     The dispatcher's loop: send each claimed row and record exactly one outcome for it, in order. The
     database answers the first `answered` times; its first error ends the loop and is returned.
     */
    method RecordOutcomes(batch: seq<(RowId, Row)>, outcomes: seq<SendResult>, times: seq<int>, answered: nat)
      returns (done: bool)
      requires |outcomes| == |times| == |batch|
      modifies this`rows
      ensures done <==> answered >= |batch|
      ensures var k := Min(answered, |batch|); rows == AfterOutcomes(old(rows), batch[..k], outcomes[..k], times[..k])
    {
      for i := 0 to |batch|
        invariant i <= answered
        invariant rows == AfterOutcomes(old(rows), batch[..i], outcomes[..i], times[..i])
      {
        if i == answered {
          return false;
        }
        match outcomes[i] {
          case Success => MarkDelivered(batch[i].0, times[i]);
          case Failure(message) => Fail(batch[i].0, batch[i].1, times[i], message);
        }
        OneMoreOutcome(old(rows), batch, outcomes, times, i);
      }
      done := true;
      assert batch[..|batch|] == batch && outcomes[..|batch|] == outcomes && times[..|batch|] == times;
    }
  }

  lemma {:induction false} OneMoreOutcome(rows: Table, batch: seq<(RowId, Row)>, outcomes: seq<SendResult>,
                                          times: seq<int>, i: nat)
    requires |outcomes| == |times| == |batch| && i < |batch|
    ensures var before := AfterOutcomes(rows, batch[..i], outcomes[..i], times[..i]);
            var (id, record) := batch[i];
            AfterOutcomes(rows, batch[..i + 1], outcomes[..i + 1], times[..i + 1])
            == if id in before then before[id := Recorded(before[id], record, outcomes[i], times[i])] else before
    decreases i
  {
    if i == 0 {
      assert AfterOutcomes(rows, [], [], []) == rows;
    } else {
      var id := batch[0].0;
      var next := if id in rows then rows[id := Recorded(rows[id], batch[0].1, outcomes[0], times[0])] else rows;
      OneMoreOutcome(next, batch[1..], outcomes[1..], times[1..], i - 1);
      assert batch[..i + 1][1..] == batch[1..][..i] && batch[..i][1..] == batch[1..][..i - 1];
      assert outcomes[..i + 1][1..] == outcomes[1..][..i] && outcomes[..i][1..] == outcomes[1..][..i - 1];
      assert times[..i + 1][1..] == times[1..][..i] && times[..i][1..] == times[1..][..i - 1];
    }
  }

  datatype SendResult = Success | Failure(message: string)

  function Recorded(row: Row, record: Row, outcome: SendResult, now: int): Row {
    match outcome
    case Success => Sent(row, now)
    case Failure(message) => Failed(row, record, now, message)
  }

  function AfterOutcomes(rows: Table, batch: seq<(RowId, Row)>, outcomes: seq<SendResult>, times: seq<int>): Table
    requires |outcomes| == |times| == |batch|
    decreases |batch|
  {
    if batch == [] then rows
    else
      var id := batch[0].0;
      var next := if id in rows then rows[id := Recorded(rows[id], batch[0].1, outcomes[0], times[0])] else rows;
      AfterOutcomes(next, batch[1..], outcomes[1..], times[1..])
  }

  /** One batch of distinct rows records each row's own outcome and touches no other row. */
  lemma {:induction false} OneOutcomeEach(rows: Table, batch: seq<(RowId, Row)>, outcomes: seq<SendResult>,
                                          times: seq<int>)
    requires |outcomes| == |times| == |batch|
    requires forall i, j :: 0 <= i < j < |batch| ==> batch[i].0 != batch[j].0
    ensures var after := AfterOutcomes(rows, batch, outcomes, times);
            && after.Keys == rows.Keys
            && (forall i :: 0 <= i < |batch| && batch[i].0 in rows ==>
                  after[batch[i].0] == Recorded(rows[batch[i].0], batch[i].1, outcomes[i], times[i]))
            && (forall id :: id in rows && (forall i :: 0 <= i < |batch| ==> batch[i].0 != id) ==>
                 after[id] == rows[id])
    decreases |batch|
  {
    if batch == [] {
    } else {
      var id := batch[0].0;
      var next := if id in rows then rows[id := Recorded(rows[id], batch[0].1, outcomes[0], times[0])] else rows;
      OneOutcomeEach(next, batch[1..], outcomes[1..], times[1..]);
      var after := AfterOutcomes(rows, batch, outcomes, times);
      forall i | 0 <= i < |batch| && batch[i].0 in rows
        ensures after[batch[i].0] == Recorded(rows[batch[i].0], batch[i].1, outcomes[i], times[i])
      {
        if i > 0 {
          assert batch[1..][i - 1] == batch[i] && outcomes[1..][i - 1] == outcomes[i] && times[1..][i - 1] == times[i];
        } else {
          assert forall j :: 0 <= j < |batch[1..]| ==> batch[1..][j].0 != id;
        }
      }
      forall other | other in rows && (forall i :: 0 <= i < |batch| ==> batch[i].0 != other)
        ensures after[other] == rows[other]
      {
        assert batch[0].0 != other;
        assert forall j :: 0 <= j < |batch[1..]| ==> batch[1..][j] == batch[j + 1];
      }
    }
  }
}
