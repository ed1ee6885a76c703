/** Every CQL statement or logged batch of the store that writes, as one atomic
    function on the tables. INSERT and UPDATE are upserts: they overwrite the
    columns they name and leave the others as they were. */
module Statements {
  import opened Schema

  /** The outbox row an upsert starts from; the columns of a missing row are null. */
  function OutboxBase(t: Tables, id: EventId): OutboxRow {
    if id in t.outbox then t.outbox[id]
    else OutboxRow(Body("", "", "", ""), EPOCH, Pending, None, None)
  }

  function RetryBase(t: Tables, id: EventId): RetryRow {
    if id in t.retry then t.retry[id]
    else RetryRow(0, EPOCH, "", "", None, false, None, None)
  }

  /** INSERT INTO idempotency_keys ... IF NOT EXISTS. */
  function InsertKey(t: Tables, key: Key, id: EventId, now: Time): Tables {
    if key in t.keys then t else t.(keys := t.keys[key := KeyRow(id, now)])
  }

  function InsertCreated(t: Tables, key: Key, id: EventId, now: Time): Tables {
    t.(byCreated := t.byCreated[CreatedKey(now, key) := id])
  }

  /** The logged batch that stores a new event in all five event tables. */
  function WriteEvent(t: Tables, id: EventId, row: EventRow): Tables {
    t.(byStream := t.byStream[StreamKey(row.body.stream, row.occurredAt, id) := row.body],
       byId := t.byId[id := row],
       outbox := t.outbox[id := OutboxBase(t, id).(body := row.body, occurredAt := row.occurredAt, state := Pending)],
       pending := t.pending[Slot(row.occurredAt, id) := row.body],
       retry := t.retry[id := RetryBase(t, id).(
         retryCount := 0, nextAttempt := row.occurredAt, lastError := "",
         leaseOwner := "", leaseUntil := Some(EPOCH), quarantined := false)])
  }

  /** The logged batch of MarkOutboxPublished. */
  function MarkPublished(t: Tables, id: EventId, occurredAt: Time, brokerId: string, now: Time): Tables {
    t.(outbox := t.outbox[id := OutboxBase(t, id).(state := Published, publishedAt := Some(now), brokerId := Some(brokerId))],
       pending := t.pending - {Slot(occurredAt, id)},
       retry := t.retry - {id})
  }

  /** The condition of UPDATE outbox_retry_state ... IF lease_until < now. */
  predicate LeaseFree(t: Tables, id: EventId, now: Time) {
    id in t.retry && t.retry[id].leaseUntil.Some? && t.retry[id].leaseUntil.value < now
  }

  function ClaimLease(t: Tables, id: EventId, owner: string, now: Time, duration: int): Tables {
    if LeaseFree(t, id, now)
    then t.(retry := t.retry[id := t.retry[id].(leaseOwner := owner, leaseUntil := Some(now + duration))])
    else t
  }

  /** UPDATE outbox_retry_state of RecordOutboxFailure: it also clears any lease. */
  function WriteFailure(t: Tables, id: EventId, count: nat, next: Time, error: string,
                        quarantined: bool, now: Time, first: Time): Tables {
    t.(retry := t.retry[id := RetryRow(count, next, error, "", Some(EPOCH), quarantined, Some(now), Some(first))])
  }

  function WriteDeadLetter(t: Tables, id: EventId, letter: DeadLetter): Tables {
    t.(deadByTime := t.deadByTime[Slot(letter.at, id) := letter.row],
       deadById := t.deadById[id := letter])
  }

  /** The logged batch of ReplayDeadLetter. */
  function ReplayLetter(t: Tables, id: EventId, letter: DeadLetter, occurredAt: Time, now: Time): Tables {
    t.(outbox := t.outbox[id := OutboxBase(t, id).(body := letter.row.body, occurredAt := occurredAt, state := Pending)],
       pending := t.pending[Slot(occurredAt, id) := letter.row.body],
       retry := t.retry[id := RetryBase(t, id).(
         quarantined := false, quarantinedAt := Some(EPOCH), retryCount := letter.row.retryCount,
         nextAttempt := now, lastError := "", leaseOwner := "", leaseUntil := Some(EPOCH))],
       deadByTime := t.deadByTime - {Slot(letter.at, id)},
       deadById := t.deadById - {id})
  }

  function DeleteKey(t: Tables, row: CreatedKey): Tables {
    t.(keys := t.keys - {row.key}, byCreated := t.byCreated - {row})
  }

  function DeleteDeadLetter(t: Tables, slot: Slot): Tables {
    t.(deadByTime := t.deadByTime - {slot}, deadById := t.deadById - {slot.id})
  }

  /** INSERT INTO inbox_consumed ... IF NOT EXISTS. */
  function ClaimInbox(t: Tables, key: InboxKey, now: Time): Tables {
    if key in t.inbox then t else t.(inbox := t.inbox[key := now])
  }
}
