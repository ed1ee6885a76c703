/** The store operations when nothing interleaves: each is the composition of its atomic
    statements on the tables. */
module Operations {
  import opened Schema
  import opened Statements
  import opened Protocol
  import Backoff

  /** Why an operation failed; Broken stands for the error of a statement. */
  datatype Error = NoSession | BadId | NotFound | Broken
  datatype Result<+T> = Ok(value: T) | Err(error: Error)

  datatype AppendResult = AppendResult(id: EventId, event: EventRow, key: string, duplicate: bool, published: bool)

  /** A request as the store receives it; no time means "now", no stream means "default". */
  datatype Submission = Submission(key: string, body: Body, occurredAt: Option<Time>)

  function Filled(req: Submission, now: Time): Request {
    Normal(Request(req.key, EventRow(if req.occurredAt.Some? then req.occurredAt.value else now, req.body)))
  }

  /** The answer a duplicate gets: what is stored, or an error while the first append has not stored it. */
  function Existing(t: Tables, id: EventId, key: string): Result<AppendResult> {
    if id in t.byId && id in t.outbox
    then Ok(AppendResult(id, t.byId[id], key, true, t.outbox[id].state == Published))
    else Err(NotFound)
  }

  function Appended(t: Tables, req: Request, newId: EventId, keyTime: Time, indexTime: Time): (Tables, Result<AppendResult>) {
    var key := KeyOf(req);
    var created := Ok(AppendResult(newId, req.row, req.key, false, false));
    if req.key == "" then (WriteEvent(t, newId, req.row), created)
    else if key in t.keys then (t, Existing(t, t.keys[key].id, req.key))
    else (WriteEvent(InsertCreated(InsertKey(t, key, newId, keyTime), key, newId, indexTime), newId, req.row), created)
  }

  function Marked(t: Tables, id: EventId, brokerId: string, now: Time): (Tables, Result<()>) {
    if id in t.outbox then (MarkPublished(t, id, t.outbox[id].occurredAt, brokerId, now), Ok(())) else (t, Err(NotFound))
  }

  /** What RecordOutboxFailure returns: whether it quarantined, the new count, and an error. */
  datatype Failure = Failure(quarantined: bool, count: nat, error: Option<Error>)

  function FirstFailure(t: Tables, id: EventId, now: Time): Time {
    if id in t.retry && t.retry[id].firstFailed.Some? then t.retry[id].firstFailed.value else now
  }

  /** A recorded failure whose next attempt is due at `next`. */
  function FailedUntil(t: Tables, id: EventId, error: string, limit: int, next: Time, now: Time): (Tables, Failure) {
    var count := RetryCountOf(t, id) + 1;
    var quarantined := count >= limit;
    var t1 := WriteFailure(t, id, count, next, error, quarantined, now, FirstFailure(t, id, now));
    if !quarantined then (t1, Failure(false, count, None))
    else if id !in t1.outbox then (t1, Failure(true, count, Some(NotFound)))
    else (WriteDeadLetter(t1, id, DeadLetter(now, DeadRow(t1.outbox[id].body, count, error))), Failure(true, count, None))
  }

  /** When the next attempt is due after a failure recorded now. */
  function NextDue(t: Tables, id: EventId, policy: Backoff.Policy, draw: nat, now: Time): Time {
    now + Backoff.WaitMs(policy, RetryCountOf(t, id) + 1, draw)
  }

  function Failed(t: Tables, id: EventId, error: string, policy: Backoff.Policy, draw: nat, now: Time): (Tables, Failure) {
    FailedUntil(t, id, error, policy.quarantineAfter, NextDue(t, id, policy, draw, now), now)
  }

  lemma FailureRow(t: Tables, id: EventId, count: nat, next: Time, error: string, quarantined: bool, now: Time, first: Time)
    ensures var t' := WriteFailure(t, id, count, next, error, quarantined, now, first);
            && t'.outbox == t.outbox && t'.pending == t.pending
            && id in t'.retry && t'.retry == t.retry[id := t'.retry[id]]
            && t'.retry[id].retryCount == count && t'.retry[id].quarantined == quarantined && t'.retry[id].leaseUntil == Some(EPOCH)
  {
  }

  lemma LetterLeaves(t: Tables, id: EventId, letter: DeadLetter)
    ensures var t' := WriteDeadLetter(t, id, letter); t'.outbox == t.outbox && t'.pending == t.pending && t'.retry == t.retry
  {
  }

  lemma UntilTables(t: Tables, id: EventId, error: string, limit: int, next: Time, now: Time)
    ensures var t' := FailedUntil(t, id, error, limit, next, now).0;
            && t'.outbox == t.outbox && t'.pending == t.pending
            && id in t'.retry && t'.retry == t.retry[id := t'.retry[id]]
            && t'.retry[id].retryCount == RetryCountOf(t, id) + 1
            && (t'.retry[id].quarantined <==> RetryCountOf(t, id) + 1 >= limit)
            && t'.retry[id].leaseUntil == Some(EPOCH)
  {
    var count := RetryCountOf(t, id) + 1;
    FailureRow(t, id, count, next, error, count >= limit, now, FirstFailure(t, id, now));
    var t1 := WriteFailure(t, id, count, next, error, count >= limit, now, FirstFailure(t, id, now));
    if count >= limit && id in t1.outbox {
      LetterLeaves(t1, id, DeadLetter(now, DeadRow(t1.outbox[id].body, count, error)));
    }
  }

  /** What a recorded failure does to the tables the relay looks at. */
  lemma FailedTables(t: Tables, id: EventId, error: string, policy: Backoff.Policy, draw: nat, now: Time)
    ensures var t' := Failed(t, id, error, policy, draw, now).0;
            && t'.outbox == t.outbox && t'.pending == t.pending
            && id in t'.retry && t'.retry == t.retry[id := t'.retry[id]]
            && t'.retry[id].retryCount == RetryCountOf(t, id) + 1
            && (t'.retry[id].quarantined <==> RetryCountOf(t, id) + 1 >= policy.quarantineAfter)
            && t'.retry[id].leaseUntil == Some(EPOCH)
  {
    UntilTables(t, id, error, policy.quarantineAfter, NextDue(t, id, policy, draw, now), now);
  }

  function Replayed(t: Tables, id: EventId, now: Time): (Tables, Result<()>) {
    if id in t.deadById
    then (ReplayLetter(t, id, t.deadById[id], if id in t.outbox then t.outbox[id].occurredAt else now, now), Ok(()))
    else (t, Err(NotFound))
  }

  /** What the scan makes of one row: it reads the retry row, which may fail, and judges it by the clock. */
  predicate SeenEligible(t: Tables, id: EventId, look: Option<Time>) {
    look.Some? && Eligible(t, id, look.value)
  }

  /** The pending scan over a page: rows[i] is judged by looks(at + i), until `room` records are found. */
  function Scan(t: Tables, rows: seq<Slot>, looks: nat -> Option<Time>, at: nat, room: nat): (out: seq<Record>)
    requires forall k :: k in rows ==> k in t.pending
    ensures |out| <= room
  {
    if rows == [] || room == 0 then []
    else if SeenEligible(t, rows[0].id, looks(at)) then
      [RecordOf(t, rows[0])] + Scan(t, rows[1..], looks, at + 1, room - 1)
    else Scan(t, rows[1..], looks, at + 1, room)
  }

  function RecordOf(t: Tables, k: Slot): Record
    requires k in t.pending
  {
    Record(k.id, t.pending[k], k.at, RetryCountOf(t, k.id))
  }

  function Page(t: Tables, limit: int): (page: seq<Slot>)
    ensures forall k :: k in page ==> k in t.pending
  {
    var rows := PendingRows(t);
    assert forall k :: k in First(rows, FetchLimit(limit)) ==> k in rows;
    First(rows, FetchLimit(limit))
  }

  /** The eligible rows of a page, in order, when row i is judged by looks(at + i). */
  function EligibleRows(t: Tables, rows: seq<Slot>, looks: nat -> Option<Time>, at: nat): seq<Slot> {
    if rows == [] then []
    else (if SeenEligible(t, rows[0].id, looks(at)) then [rows[0]] else []) + EligibleRows(t, rows[1..], looks, at + 1)
  }

  function Records(t: Tables, rows: seq<Slot>): seq<Record>
    requires forall k :: k in rows ==> k in t.pending
  {
    seq(|rows|, i requires 0 <= i < |rows| => RecordOf(t, rows[i]))
  }

  lemma {:induction false} EligibleRowsIn(t: Tables, rows: seq<Slot>, looks: nat -> Option<Time>, at: nat)
    requires forall k :: k in rows ==> k in t.pending
    ensures forall k :: k in EligibleRows(t, rows, looks, at) ==> k in t.pending
  {
    if rows != [] { EligibleRowsIn(t, rows[1..], looks, at + 1); }
  }

  lemma RecordsCons(t: Tables, k: Slot, rows: seq<Slot>)
    requires k in t.pending && forall r :: r in rows ==> r in t.pending
    ensures (forall r :: r in [k] + rows ==> r in t.pending) && Records(t, [k] + rows) == [RecordOf(t, k)] + Records(t, rows)
  {
  }

  /** The scan loop finds the first `room` eligible rows of its page, in clustering order. */
  lemma {:induction false} ScanIsFirstEligible(t: Tables, rows: seq<Slot>, looks: nat -> Option<Time>, at: nat, room: nat)
    requires forall k :: k in rows ==> k in t.pending
    ensures var chosen := First(EligibleRows(t, rows, looks, at), room);
            (forall k :: k in chosen ==> k in t.pending) && Scan(t, rows, looks, at, room) == Records(t, chosen)
    decreases |rows|
  {
    EligibleRowsIn(t, rows, looks, at);
    if rows != [] && room > 0 {
      var tail := EligibleRows(t, rows[1..], looks, at + 1);
      EligibleRowsIn(t, rows[1..], looks, at + 1);
      if SeenEligible(t, rows[0].id, looks(at)) {
        ScanIsFirstEligible(t, rows[1..], looks, at + 1, room - 1);
        assert First([rows[0]] + tail, room) == [rows[0]] + First(tail, room - 1);
        RecordsCons(t, rows[0], First(tail, room - 1));
      } else {
        ScanIsFirstEligible(t, rows[1..], looks, at + 1, room);
        assert [] + tail == tail;
      }
    }
  }

  /** A cleanup pass over expired key rows; works(i) is the fate of batch i. Only acknowledged batches count. */
  function DeleteKeys(t: Tables, rows: seq<CreatedKey>, works: nat -> Fault, at: nat): (Tables, nat)
    decreases |rows|
  {
    if rows == [] then (t, 0) else
    var (t', n) := DeleteKeys(if !works(at).Refused? then DeleteKey(t, rows[0]) else t, rows[1..], works, at + 1);
    (t', n + if works(at).Fine? then 1 else 0)
  }

  function DeleteDeadLetters(t: Tables, rows: seq<Slot>, works: nat -> Fault, at: nat): (Tables, nat)
    decreases |rows|
  {
    if rows == [] then (t, 0) else
    var (t', n) := DeleteDeadLetters(if !works(at).Refused? then DeleteDeadLetter(t, rows[0]) else t, rows[1..], works, at + 1);
    (t', n + if works(at).Fine? then 1 else 0)
  }

  function ExpiredKeys(t: Tables, cutoff: Time, limit: int): seq<CreatedKey> {
    Older(First(CreatedRows(t), CleanLimit(limit)), CreatedTime, cutoff)
  }

  function ExpiredLetters(t: Tables, cutoff: Time, limit: int): seq<Slot> {
    Older(First(DeadRows(t), CleanLimit(limit)), SlotTime, cutoff)
  }

  // ---------- the operations when statements may fail ----------

  /** Every statement works. */
  const WORKING: nat -> Fault := i => Fine

  /** What a write leaves behind: nothing when it was refused, all when only its reply was lost. */
  function Left(t: Tables, written: Tables, fault: Fault): Tables {
    if fault.Refused? then t else written
  }

  function Stored(t: Tables, req: Request, newId: EventId, fault: Fault): (Tables, Result<AppendResult>) {
    (Left(t, WriteEvent(t, newId, req.row), fault),
     if fault.Fine? then Ok(AppendResult(newId, req.row, req.key, false, false)) else Err(Broken))
  }

  function FoundUnder(t: Tables, id: EventId, key: string, f: nat -> Fault): Result<AppendResult> {
    if !f(1).Fine? then Err(Broken)
    else if id !in t.byId then Err(NotFound)
    else if !f(2).Fine? then Err(Broken)
    else Existing(t, id, key)
  }

  /** An append whose statements meet the faults f(0), f(1), ... */
  function AppendedUnder(t: Tables, req: Request, newId: EventId, keyTime: Time, indexTime: Time, f: nat -> Fault): (Tables, Result<AppendResult>) {
    var key := KeyOf(req);
    if req.key == "" then Stored(t, req, newId, f(0)) else
    var t1 := Left(t, InsertKey(t, key, newId, keyTime), f(0));
    if !f(0).Fine? then (t1, Err(Broken))
    else if key in t.keys then (t1, FoundUnder(t1, t.keys[key].id, req.key, f)) else
    var t2 := Left(t1, InsertCreated(t1, key, newId, indexTime), f(1));
    if !f(1).Fine? then (t2, Err(Broken)) else Stored(t2, req, newId, f(2))
  }

  function MarkedUnder(t: Tables, id: EventId, brokerId: string, now: Time, f: nat -> Fault): (Tables, Result<()>) {
    if !f(0).Fine? then (t, Err(Broken))
    else if id !in t.outbox then (t, Err(NotFound))
    else (Left(t, MarkPublished(t, id, t.outbox[id].occurredAt, brokerId, now), f(1)), if f(1).Fine? then Ok(()) else Err(Broken))
  }

  /** The dead letter of a failure that reached the limit. */
  function LetteredUnder(t: Tables, id: EventId, count: nat, error: string, now: Time, f: nat -> Fault): (Tables, Failure) {
    if !f(2).Fine? then (t, Failure(true, count, Some(Broken)))
    else if id !in t.outbox then (t, Failure(true, count, Some(NotFound)))
    else (Left(t, WriteDeadLetter(t, id, DeadLetter(now, DeadRow(t.outbox[id].body, count, error))), f(3)),
          Failure(true, count, if f(3).Fine? then None else Some(Broken)))
  }

  function FailedUntilUnder(t: Tables, id: EventId, error: string, limit: int, next: Time, now: Time, f: nat -> Fault): (Tables, Failure) {
    if !f(0).Fine? then (t, Failure(false, 0, Some(Broken))) else
    var count := RetryCountOf(t, id) + 1;
    var t1 := Left(t, WriteFailure(t, id, count, next, error, count >= limit, now, FirstFailure(t, id, now)), f(1));
    if !f(1).Fine? then (t1, Failure(false, count, Some(Broken)))
    else if count < limit then (t1, Failure(false, count, None))
    else LetteredUnder(t1, id, count, error, now, f)
  }

  function FailedUnder(t: Tables, id: EventId, error: string, policy: Backoff.Policy, draw: nat, now: Time, f: nat -> Fault): (Tables, Failure) {
    FailedUntilUnder(t, id, error, policy.quarantineAfter, NextDue(t, id, policy, draw, now), now, f)
  }

  function ReplayedUnder(t: Tables, id: EventId, now: Time, f: nat -> Fault): (Tables, Result<()>) {
    if !f(0).Fine? then (t, Err(Broken))
    else if id !in t.deadById then (t, Err(NotFound))
    else if !f(1).Fine? then (t, Err(Broken))
    else (Left(t, ReplayLetter(t, id, t.deadById[id], if id in t.outbox then t.outbox[id].occurredAt else now, now), f(2)),
          if f(2).Fine? then Ok(()) else Err(Broken))
  }

  datatype Cleaning = Cleaning(keys: nat, letters: nat, error: Option<Error>)

  /** A cleanup pass: the two page reads may fail, and each deletion has its own fate. */
  function CleanedUnder(t: Tables, keyCutoff: Time, deadCutoff: Time, limit: int, keyPage: Fault, keyWorks: nat -> Fault,
                        deadPage: Fault, deadWorks: nat -> Fault): (Tables, Cleaning) {
    if !keyPage.Fine? then (t, Cleaning(0, 0, Some(Broken))) else
    var (t1, n1) := DeleteKeys(t, ExpiredKeys(t, keyCutoff, limit), keyWorks, 0);
    if !deadPage.Fine? then (t1, Cleaning(n1, 0, Some(Broken))) else
    var (t2, n2) := DeleteDeadLetters(t1, ExpiredLetters(t1, deadCutoff, limit), deadWorks, 0);
    (t2, Cleaning(n1, n2, None))
  }

  /** When all statements work, the operations are the sequential ones. */
  lemma WorkingAppend(t: Tables, req: Request, newId: EventId, keyTime: Time, indexTime: Time)
    ensures AppendedUnder(t, req, newId, keyTime, indexTime, WORKING) == Appended(t, req, newId, keyTime, indexTime)
  {
  }

  lemma WorkingMark(t: Tables, id: EventId, brokerId: string, now: Time)
    ensures MarkedUnder(t, id, brokerId, now, WORKING) == Marked(t, id, brokerId, now)
  {
  }

  lemma WorkingFailure(t: Tables, id: EventId, error: string, policy: Backoff.Policy, draw: nat, now: Time)
    ensures FailedUnder(t, id, error, policy, draw, now, WORKING) == Failed(t, id, error, policy, draw, now)
  {
  }

  lemma WorkingReplay(t: Tables, id: EventId, now: Time)
    ensures ReplayedUnder(t, id, now, WORKING) == Replayed(t, id, now)
  {
  }
}
