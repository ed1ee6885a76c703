/** The event store module: one object whose operations update the tables in place.
    Clock readings, random draws, time UUIDs and the outcome of parsing an id are
    parameters. Each operation is proved equal to its sequential specification. */
module CassStore {
  import opened Schema
  import opened Statements
  import opened Protocol
  import opened Operations
  import opened Collections
  import opened Handout
  import Cleanup
  import Backoff

  class Module {
    var session: bool
    var keys: map<Key, KeyRow>
    var byCreated: map<CreatedKey, EventId>
    var byStream: map<StreamKey, Body>
    var byId: map<EventId, EventRow>
    var outbox: map<EventId, OutboxRow>
    var pending: map<Slot, Body>
    var retry: map<EventId, RetryRow>
    var inbox: map<InboxKey, Time>
    var deadByTime: map<Slot, DeadRow>
    var deadById: map<EventId, DeadLetter>

    constructor ()
      ensures !session && View() == EMPTY
    {
      session := false;
      keys, byCreated, byStream, byId := map[], map[], map[], map[];
      outbox, pending, retry, inbox := map[], map[], map[], map[];
      deadByTime, deadById := map[], map[];
    }

    /** The session is set up when connecting and creating the schema work. */
    method Start(works: bool) returns (r: Result<()>)
      modifies this`session
      ensures session == (works || old(session)) && r == if works then Ok(()) else Err(Broken)
    {
      if !works { return Err(Broken); }
      session := true;
      r := Ok(());
    }

    method Stop()
      modifies this`session
      ensures !session
    {
      session := false;
    }

    function View(): Tables
      reads this
    {
      Tables(keys, byCreated, byStream, byId, outbox, pending, retry, inbox, deadByTime, deadById)
    }

    /** `f(i)` is what happens to statement i of the operation. */
    method AppendEventExactlyOnce(req: Submission, newId: EventId, now: Time, keyTime: Time, indexTime: Time, f: nat -> Fault)
        returns (r: Result<AppendResult>)
      modifies this
      ensures session == old(session)
      ensures !session ==> View() == old(View()) && r == Err(NoSession)
      ensures session ==> (View(), r) == AppendedUnder(old(View()), Filled(req, now), newId, keyTime, indexTime, f)
      ensures r.Ok? && !r.value.duplicate ==>
                var row := r.value.event;
                && r.value.id == newId && newId in byId && byId[newId] == row
                && row.occurredAt == (if req.occurredAt.Some? then req.occurredAt.value else now)
                && row.body.stream == (if req.body.stream == "" then "default" else req.body.stream)
                && row.body.subject == req.body.subject && row.body.eventType == req.body.eventType && row.body.payload == req.body.payload
    {
      if !session {
        return Err(NoSession);
      }
      var stream := if req.body.stream == "" then "default" else req.body.stream;
      var body := req.body.(stream := stream);
      var occurredAt := if req.occurredAt.Some? then req.occurredAt.value else now;
      var key := Key(stream, req.key);
      if req.key == "" {
        r := StoreEvent(req.key, newId, EventRow(occurredAt, body), f(0));
        return;
      }
      var taken := key in keys;
      if !taken && !f(0).Refused? { keys := keys[key := KeyRow(newId, keyTime)]; }
      if !f(0).Fine? { return Err(Broken); }
      if taken {
        r := ReadExisting(keys[key].id, req.key, f);
        return;
      }
      if !f(1).Refused? { byCreated := byCreated[CreatedKey(indexTime, key) := newId]; }
      if !f(1).Fine? { return Err(Broken); }
      r := StoreEvent(req.key, newId, EventRow(occurredAt, body), f(2));
    }

    /** The answer to a duplicate: the stored event and its publish state. */
    method ReadExisting(existing: EventId, key: string, f: nat -> Fault) returns (r: Result<AppendResult>)
      ensures r == FoundUnder(View(), existing, key, f)
    {
      if !f(1).Fine? { return Err(Broken); }
      if existing !in byId { return Err(NotFound); }
      if !f(2).Fine? { return Err(Broken); }
      if existing !in outbox { return Err(NotFound); }
      r := Ok(AppendResult(existing, byId[existing], key, true, outbox[existing].state == Published));
    }

    /** The logged batch of an append. */
    method StoreEvent(key: string, newId: EventId, row: EventRow, fault: Fault) returns (r: Result<AppendResult>)
      modifies this
      ensures session == old(session)
      ensures (View(), r) == Stored(old(View()), Request(key, row), newId, fault)
    {
      if !fault.Refused? {
        var o, q := OutboxBase(View(), newId), RetryBase(View(), newId);
        byStream := byStream[StreamKey(row.body.stream, row.occurredAt, newId) := row.body];
        byId := byId[newId := row];
        outbox := outbox[newId := o.(body := row.body, occurredAt := row.occurredAt, state := Pending)];
        pending := pending[Slot(row.occurredAt, newId) := row.body];
        retry := retry[newId := q.(retryCount := 0, nextAttempt := row.occurredAt, lastError := "",
                                   leaseOwner := "", leaseUntil := Some(EPOCH), quarantined := false)];
      }
      r := if fault.Fine? then Ok(AppendResult(newId, row, key, false, false)) else Err(Broken);
    }

    method MarkOutboxPublished(parsed: Option<EventId>, brokerId: string, now: Time, f: nat -> Fault) returns (r: Result<()>)
      modifies this
      ensures session == old(session)
      ensures !session ==> View() == old(View()) && r == Err(NoSession)
      ensures session && parsed.None? ==> View() == old(View()) && r == Err(BadId)
      ensures session && parsed.Some? ==> (View(), r) == MarkedUnder(old(View()), parsed.value, brokerId, now, f)
    {
      if !session { return Err(NoSession); }
      if parsed.None? { return Err(BadId); }
      var id := parsed.value;
      if !f(0).Fine? { return Err(Broken); }
      if id !in outbox { return Err(NotFound); }
      if !f(1).Refused? {
        var occurredAt := outbox[id].occurredAt;
        outbox := outbox[id := outbox[id].(state := Published, publishedAt := Some(now), brokerId := Some(brokerId))];
        pending := pending - {Slot(occurredAt, id)};
        retry := retry - {id};
      }
      r := if f(1).Fine? then Ok(()) else Err(Broken);
    }

    /** The pending scan returns the first L eligible rows of its page, in clustering order; rows whose
        retry state cannot be read are skipped. In columns: every record returned comes from a row of the
        page that was not quarantined, whose next attempt was due and whose lease had run out at the reading
        taken for it, and every other row up to the last one taken was held back or could not be read. */
    method PendingOutboxEvents(limit: int, list: Fault, looks: nat -> Option<Time>) returns (r: Result<seq<Record>>)
      ensures !session ==> r == Err(NoSession)
      ensures session && !list.Fine? ==> r == Err(Broken)
      ensures session && list.Fine? ==>
                var chosen := First(EligibleRows(View(), Page(View(), limit), looks, 0), BatchLimit(limit));
                (forall k :: k in chosen ==> k in pending) && r == Ok(Records(View(), chosen))
      ensures session && list.Fine? ==>
                r.Ok? && exists taken :: Selects(View(), Page(View(), limit), looks, 0, BatchLimit(limit), r.value, taken)
    {
      if !session { return Err(NoSession); }
      if !list.Fine? { return Err(Broken); }
      var page := Page(View(), limit);
      var out := ScanPage(page, looks, BatchLimit(limit));
      ScanIsFirstEligible(View(), page, looks, 0, BatchLimit(limit));
      assert page[0..] == page;
      ghost var taken := ScanSelects(View(), page, looks, 0, BatchLimit(limit));
      r := Ok(out);
    }

    method ScanPage(page: seq<Slot>, looks: nat -> Option<Time>, room: nat) returns (out: seq<Record>)
      requires forall k :: k in page ==> k in View().pending
      ensures out == Scan(View(), page, looks, 0, room)
    {
      out := [];
      var i := 0;
      assert page[0..] == page;
      while i < |page| && |out| < room
        invariant 0 <= i <= |page| && |out| <= room
        invariant forall k :: k in page[i..] ==> k in View().pending
        invariant Scan(View(), page, looks, 0, room) == out + Scan(View(), page[i..], looks, i, room - |out|)
      {
        var k := page[i];
        ScanNext(View(), page, looks, i, out, room);
        if looks(i).Some? {
          var now := looks(i).value;
          var count, next, quarantined, until := LoadRetryState(k.id);
          if !(quarantined || next > now || (until.Some? && until.value > now)) {
            out := out + [Record(k.id, pending[k], k.at, count)];
          }
        }
        i := i + 1;
      }
    }

    /** A missing retry row reads as never tried and never leased. */
    method LoadRetryState(id: EventId) returns (count: nat, next: Time, quarantined: bool, until: Option<Time>)
      ensures count == RetryCountOf(View(), id)
      ensures id in retry ==> next == retry[id].nextAttempt && quarantined == retry[id].quarantined && until == retry[id].leaseUntil
      ensures id !in retry ==> next == EPOCH && !quarantined && until == Some(EPOCH)
      ensures forall now :: Eligible(View(), id, now) <==> !(quarantined || next > now || (until.Some? && until.value > now))
    {
      if id in retry {
        var q := retry[id];
        return q.retryCount, q.nextAttempt, q.quarantined, q.leaseUntil;
      }
      return 0, EPOCH, false, Some(EPOCH);
    }

    method ClaimInboxMessage(consumer: string, message: MessageId, now: Time, fault: Fault) returns (r: Result<bool>)
      modifies this
      ensures session == old(session)
      ensures !session ==> View() == old(View()) && r == Err(NoSession)
      ensures session ==>
                && View() == Left(old(View()), ClaimInbox(old(View()), InboxKey(consumer, message), now), fault)
                && r == if fault.Fine? then Ok(InboxKey(consumer, message) !in old(inbox)) else Err(Broken)
      ensures session && !fault.Refused? && InboxKey(consumer, message) !in old(inbox) ==>
                inbox == old(inbox)[InboxKey(consumer, message) := now]
    {
      if !session { return Err(NoSession); }
      var key := InboxKey(consumer, message);
      var applied := key !in inbox;
      if applied && !fault.Refused? { inbox := inbox[key := now]; }
      r := if fault.Fine? then Ok(applied) else Err(Broken);
    }

    method ClaimOutboxLease(parsed: Option<EventId>, owner: string, now: Time, duration: int, fault: Fault) returns (r: Result<bool>)
      modifies this
      ensures session == old(session)
      ensures !session ==> View() == old(View()) && r == Err(NoSession)
      ensures session && parsed.None? ==> View() == old(View()) && r == Err(BadId)
      ensures session && parsed.Some? ==>
                && View() == Left(old(View()), ClaimLease(old(View()), parsed.value, owner, now, duration), fault)
                && r == if fault.Fine? then Ok(LeaseFree(old(View()), parsed.value, now)) else Err(Broken)
      ensures r == Ok(true) ==>
                && parsed.Some? && parsed.value in old(retry) && parsed.value in retry
                && old(retry)[parsed.value].leaseUntil.Some? && old(retry)[parsed.value].leaseUntil.value < now
                && retry[parsed.value].leaseOwner == owner && retry[parsed.value].leaseUntil == Some(now + duration)
      ensures r == Ok(false) ==>
                && parsed.Some? && retry == old(retry)
                && (parsed.value in retry && retry[parsed.value].leaseUntil.Some? ==> retry[parsed.value].leaseUntil.value >= now)
    {
      if !session { return Err(NoSession); }
      if parsed.None? { return Err(BadId); }
      var id := parsed.value;
      var applied := id in retry && retry[id].leaseUntil.Some? && retry[id].leaseUntil.value < now;
      if applied && !fault.Refused? {
        retry := retry[id := retry[id].(leaseOwner := owner, leaseUntil := Some(now + duration))];
      }
      r := if fault.Fine? then Ok(applied) else Err(Broken);
    }

    method RecordOutboxFailure(parsed: Option<EventId>, error: string, policy: Backoff.Policy, draw: nat, now: Time, f: nat -> Fault)
        returns (r: Failure)
      modifies this
      ensures session == old(session)
      ensures !session ==> View() == old(View()) && r == Failure(false, 0, Some(NoSession))
      ensures session && parsed.None? ==> View() == old(View()) && r == Failure(false, 0, Some(BadId))
      ensures session && parsed.Some? ==> (View(), r) == FailedUnder(old(View()), parsed.value, error, policy, draw, now, f)
    {
      if !session { return Failure(false, 0, Some(NoSession)); }
      if parsed.None? { return Failure(false, 0, Some(BadId)); }
      var id := parsed.value;
      if !f(0).Fine? { return Failure(false, 0, Some(Broken)); }
      var count: nat, first: Option<Time> := 0, None;
      if id in retry {
        count, first := retry[id].retryCount, retry[id].firstFailed;
      }
      count := count + 1;
      var wait := Backoff.ExponentialWait(policy.base, policy.max, count);
      wait := Backoff.Jittered(wait, policy.jitterPercent, draw);
      var quarantined := count >= policy.quarantineAfter;
      if first.None? { first := Some(now); }
      if !f(1).Refused? {
        retry := retry[id := RetryRow(count, now + Backoff.TruncDiv(wait, Backoff.MS), error, "", Some(EPOCH), quarantined, Some(now), first)];
      }
      if !f(1).Fine? { return Failure(false, count, Some(Broken)); }
      if !quarantined { return Failure(false, count, None); }
      r := WriteLetter(id, count, error, now, f);
    }

    /** The dead letter of a quarantined event, in both views. */
    method WriteLetter(id: EventId, count: nat, error: string, now: Time, f: nat -> Fault) returns (r: Failure)
      modifies this
      ensures session == old(session)
      ensures (View(), r) == LetteredUnder(old(View()), id, count, error, now, f)
    {
      if !f(2).Fine? { return Failure(true, count, Some(Broken)); }
      if id !in outbox { return Failure(true, count, Some(NotFound)); }
      if !f(3).Refused? {
        var row := DeadRow(outbox[id].body, count, error);
        deadByTime := deadByTime[Slot(now, id) := row];
        deadById := deadById[id := DeadLetter(now, row)];
      }
      r := Failure(true, count, if f(3).Fine? then None else Some(Broken));
    }

    method ReplayDeadLetter(parsed: Option<EventId>, now: Time, f: nat -> Fault) returns (r: Result<()>)
      modifies this
      ensures session == old(session)
      ensures !session ==> View() == old(View()) && r == Err(NoSession)
      ensures session && parsed.None? ==> View() == old(View()) && r == Err(BadId)
      ensures session && parsed.Some? ==> (View(), r) == ReplayedUnder(old(View()), parsed.value, now, f)
    {
      if !session { return Err(NoSession); }
      if parsed.None? { return Err(BadId); }
      var id := parsed.value;
      if !f(0).Fine? { return Err(Broken); }
      if id !in deadById { return Err(NotFound); }
      if !f(1).Fine? { return Err(Broken); }
      if !f(2).Refused? { ReplayBatch(id, deadById[id], if id in outbox then outbox[id].occurredAt else now, now); }
      r := if f(2).Fine? then Ok(()) else Err(Broken);
    }

    /** The logged batch of a replay. */
    method ReplayBatch(id: EventId, letter: DeadLetter, occurredAt: Time, now: Time)
      modifies this
      ensures session == old(session)
      ensures View() == ReplayLetter(old(View()), id, letter, occurredAt, now)
    {
      var o, q := OutboxBase(View(), id), RetryBase(View(), id);
      outbox := outbox[id := o.(body := letter.row.body, occurredAt := occurredAt, state := Pending)];
      pending := pending[Slot(occurredAt, id) := letter.row.body];
      retry := retry[id := q.(quarantined := false, quarantinedAt := Some(EPOCH), retryCount := letter.row.retryCount,
                              nextAttempt := now, lastError := "", leaseOwner := "", leaseUntil := Some(EPOCH))];
      deadByTime := deadByTime - {Slot(letter.at, id)};
      deadById := deadById - {id};
    }

    /** One cleanup pass; the two pages may fail to load, and batch i of either half meets its own fault. */
    method CleanupExpired(keyCutoff: Time, deadCutoff: Time, limit: int, keyPage: Fault, keyWorks: nat -> Fault,
                          deadPage: Fault, deadWorks: nat -> Fault) returns (r: Cleaning)
      modifies this
      ensures session == old(session)
      ensures !session ==> View() == old(View()) && r == Cleaning(0, 0, Some(NoSession))
      ensures session ==> (View(), r) == CleanedUnder(old(View()), keyCutoff, deadCutoff, limit, keyPage, keyWorks, deadPage, deadWorks)
      ensures |byCreated| + r.keys <= |old(byCreated)| && |deadByTime| + r.letters <= |old(deadByTime)|
      ensures Cleanup.NothingLost(keyWorks) ==> r.keys == |old(byCreated)| - |byCreated|
      ensures Cleanup.NothingLost(deadWorks) ==> r.letters == |old(deadByTime)| - |deadByTime|
    {
      ghost var before := View();
      if !session { return Cleaning(0, 0, Some(NoSession)); }
      Cleanup.CleanedCounts(before, keyCutoff, deadCutoff, limit, keyPage, keyWorks, deadPage, deadWorks);
      if !keyPage.Fine? { return Cleaning(0, 0, Some(Broken)); }
      var page := First(CreatedRows(View()), CleanLimit(limit));
      var rows := Collect(page, CreatedTime, keyCutoff);
      var n1 := CleanKeyRows(rows, keyWorks);
      if !deadPage.Fine? { return Cleaning(n1, 0, Some(Broken)); }
      var letters := First(DeadRows(View()), CleanLimit(limit));
      var slots := Collect(letters, SlotTime, deadCutoff);
      var n2 := CleanDeadRows(slots, deadWorks);
      r := Cleaning(n1, n2, None);
    }

    method CleanKeyRows(rows: seq<CreatedKey>, works: nat -> Fault) returns (deleted: nat)
      modifies this
      ensures session == old(session)
      ensures (View(), deleted) == DeleteKeys(old(View()), rows, works, 0)
    {
      deleted := 0;
      var i := 0;
      while i < |rows|
        invariant 0 <= i <= |rows| && session == old(session)
        invariant var (t, n) := DeleteKeys(View(), rows[i..], works, i); DeleteKeys(old(View()), rows, works, 0) == (t, n + deleted)
      {
        assert rows[i..][1..] == rows[i + 1..];
        if !works(i).Refused? {
          keys := keys - {rows[i].key};
          byCreated := byCreated - {rows[i]};
        }
        if works(i).Fine? { deleted := deleted + 1; }
        i := i + 1;
      }
    }

    method CleanDeadRows(rows: seq<Slot>, works: nat -> Fault) returns (deleted: nat)
      modifies this
      ensures session == old(session)
      ensures (View(), deleted) == DeleteDeadLetters(old(View()), rows, works, 0)
    {
      deleted := 0;
      var i := 0;
      while i < |rows|
        invariant 0 <= i <= |rows| && session == old(session)
        invariant var (t, n) := DeleteDeadLetters(View(), rows[i..], works, i); DeleteDeadLetters(old(View()), rows, works, 0) == (t, n + deleted)
      {
        assert rows[i..][1..] == rows[i + 1..];
        if !works(i).Refused? {
          deadByTime := deadByTime - {rows[i]};
          deadById := deadById - {rows[i].id};
        }
        if works(i).Fine? { deleted := deleted + 1; }
        i := i + 1;
      }
    }
  }

  /** One row of the scan: it is taken when it is eligible, and passed over otherwise. */
  lemma ScanNext(t: Tables, page: seq<Slot>, looks: nat -> Option<Time>, i: nat, out: seq<Record>, room: nat)
    requires i < |page| && |out| < room && forall k :: k in page[i..] ==> k in t.pending
    ensures page[i] in t.pending && forall k :: k in page[i + 1..] ==> k in t.pending
    ensures var more := if SeenEligible(t, page[i].id, looks(i)) then out + [RecordOf(t, page[i])] else out;
            out + Scan(t, page[i..], looks, i, room - |out|) == more + Scan(t, page[i + 1..], looks, i + 1, room - |more|)
  {
    assert page[i] in page[i..] && page[i..][1..] == page[i + 1..];
  }

  lemma OlderNext<K(!new)>(page: seq<K>, time: K -> Time, cutoff: Time, i: nat)
    requires i < |page|
    ensures var rest := Older(page[i + 1..], time, cutoff);
            Older(page[i..], time, cutoff) == if time(page[i]) < cutoff then [page[i]] + rest else rest
  {
    assert page[i..][1..] == page[i + 1..];
  }

  /** The loop that keeps the rows older than a cutoff. */
  method Collect<K(!new, ==)>(page: seq<K>, time: K -> Time, cutoff: Time) returns (rows: seq<K>)
    ensures rows == Older(page, time, cutoff)
  {
    rows := [];
    var i := 0;
    assert page[0..] == page;
    while i < |page|
      invariant 0 <= i <= |page|
      invariant Older(page, time, cutoff) == rows + Older(page[i..], time, cutoff)
    {
      OlderNext(page, time, cutoff, i);
      if time(page[i]) < cutoff {
        Regroup(rows, [page[i]], Older(page[i + 1..], time, cutoff));
        rows := rows + [page[i]];
      }
      i := i + 1;
    }
  }
}
