/** The ten Cassandra tables behind the event store, as values.

    A table is a map from its primary key to its remaining columns. Times are
    integer milliseconds. Event identifiers (time UUIDs) are natural numbers
    whose numeric order stands for the time-UUID clustering order. */
module Schema {
  datatype Option<+T> = None | Some(value: T)

  type Time = int
  type EventId = nat

  /** `time.Unix(0, 0)`, written to `lease_until` to say "not leased". */
  const EPOCH: Time := 0

  /** The columns that describe an event wherever it is copied. */
  datatype Body = Body(stream: string, subject: string, eventType: string, payload: string)

  datatype EventRow = EventRow(occurredAt: Time, body: Body)

  datatype PublishState = Pending | Published

  datatype OutboxRow = OutboxRow(
    body: Body, occurredAt: Time, state: PublishState,
    publishedAt: Option<Time>, brokerId: Option<string>)

  /** Columns that some statement leaves unset are optional: a null `lease_until`
      satisfies no comparison, a null time scans as the zero time. */
  datatype RetryRow = RetryRow(
    retryCount: nat, nextAttempt: Time, lastError: string,
    leaseOwner: string, leaseUntil: Option<Time>,
    quarantined: bool, quarantinedAt: Option<Time>, firstFailed: Option<Time>)

  datatype Key = Key(stream: string, name: string)
  datatype KeyRow = KeyRow(id: EventId, createdAt: Time)
  datatype CreatedKey = CreatedKey(createdAt: Time, key: Key)

  /** Clustering key of `outbox_by_state` and of `dead_letters_by_time`. */
  datatype Slot = Slot(at: Time, id: EventId)
  datatype StreamKey = StreamKey(stream: string, occurredAt: Time, id: EventId)

  datatype DeadRow = DeadRow(body: Body, retryCount: nat, lastError: string)
  datatype DeadLetter = DeadLetter(at: Time, row: DeadRow)

  /** The broker message id a consumer sees: absent, an event id, or some other text. */
  datatype MessageId = NoId | EventMsg(id: EventId) | Foreign(text: string)
  datatype InboxKey = InboxKey(consumer: string, message: MessageId)

  datatype Tables = Tables(
    keys: map<Key, KeyRow>,
    byCreated: map<CreatedKey, EventId>,
    byStream: map<StreamKey, Body>,
    byId: map<EventId, EventRow>,
    outbox: map<EventId, OutboxRow>,
    pending: map<Slot, Body>,
    retry: map<EventId, RetryRow>,
    inbox: map<InboxKey, Time>,
    deadByTime: map<Slot, DeadRow>,
    deadById: map<EventId, DeadLetter>)

  const EMPTY: Tables := Tables(map[], map[], map[], map[], map[], map[], map[], map[], map[], map[])

  /** One row of the pending scan, as the relay carries it around. */
  datatype Record = Record(id: EventId, body: Body, occurredAt: Time, retryCount: nat)
}
