/** When the pending scan hands an event out and when its lease can be claimed, in terms of the columns
    of the retry row. */
module Handout {
  import opened Schema
  import opened Statements
  import opened Protocol
  import opened Operations
  import opened Ordering

  /** What holds an event back at a clock reading: quarantine, a next attempt still to come, a lease still
      running. An event without retry row is held back only before the epoch. */
  predicate Held(t: Tables, id: EventId, now: Time) {
    if id in t.retry then
      || t.retry[id].quarantined
      || now < t.retry[id].nextAttempt
      || (t.retry[id].leaseUntil.Some? && now < t.retry[id].leaseUntil.value)
    else now < EPOCH
  }

  /** A row of the page is passed over: its retry state could not be read, or holds it back. */
  predicate Skipped(t: Tables, k: Slot, look: Option<Time>) {
    look.None? || Held(t, k.id, look.value)
  }

  /** The record a row of the page becomes. */
  predicate Carries(t: Tables, k: Slot, r: Record) {
    && k in t.pending && r.id == k.id && r.occurredAt == k.at && r.body == t.pending[k]
    && r.retryCount == if k.id in t.retry then t.retry[k.id].retryCount else 0
  }

  /** From page[i] on, `out` holds the records of the rows taken[0] < taken[1] < ...; every other row is
      passed over, or comes after the last taken one when `out` is full. */
  ghost predicate Selects(t: Tables, page: seq<Slot>, looks: nat -> Option<Time>, i: nat, room: nat, out: seq<Record>, taken: seq<nat>) {
    && |taken| == |out| <= room
    && (forall m :: 0 <= m < |out| ==>
          i <= taken[m] < |page| && Carries(t, page[taken[m]], out[m]) && !Skipped(t, page[taken[m]], looks(taken[m])))
    && (forall m, n :: 0 <= m < n < |taken| ==> taken[m] < taken[n])
    && (forall j :: i <= j < |page| && j !in taken ==>
          Skipped(t, page[j], looks(j)) || (|out| == room && forall m :: 0 <= m < |taken| ==> taken[m] < j))
  }

  lemma SkippedExactly(t: Tables, k: Slot, look: Option<Time>)
    ensures SeenEligible(t, k.id, look) <==> !Skipped(t, k, look)
  {
  }

  lemma TakenHead(t: Tables, page: seq<Slot>, looks: nat -> Option<Time>, i: nat, out: seq<Record>, taken: seq<nat>, r: Record, m: nat)
    requires i < |page| && |taken| == |out| && m <= |out| && Carries(t, page[i], r) && !Skipped(t, page[i], looks(i))
    requires forall n :: 0 <= n < |out| ==>
               i < taken[n] < |page| && Carries(t, page[taken[n]], out[n]) && !Skipped(t, page[taken[n]], looks(taken[n]))
    ensures var k := ([i] + taken)[m];
            i <= k < |page| && Carries(t, page[k], ([r] + out)[m]) && !Skipped(t, page[k], looks(k)) && (m > 0 ==> i < k)
  {
    if m > 0 { assert ([i] + taken)[m] == taken[m - 1] && ([r] + out)[m] == out[m - 1]; }
  }

  lemma SelectHead(t: Tables, page: seq<Slot>, looks: nat -> Option<Time>, i: nat, room: nat, out: seq<Record>, taken: seq<nat>, r: Record)
    requires i < |page| && room > 0 && Selects(t, page, looks, i + 1, room - 1, out, taken)
    requires Carries(t, page[i], r) && !Skipped(t, page[i], looks(i))
    ensures Selects(t, page, looks, i, room, [r] + out, [i] + taken)
  {
    var all: seq<nat> := [i] + taken;
    forall m | 0 <= m < |all|
      ensures i <= all[m] < |page| && Carries(t, page[all[m]], ([r] + out)[m]) && !Skipped(t, page[all[m]], looks(all[m])) && (m > 0 ==> i < all[m])
    {
      TakenHead(t, page, looks, i, out, taken, r, m);
    }
    forall j | i <= j < |page| && j !in all
      ensures Skipped(t, page[j], looks(j)) || (|out| + 1 == room && forall m :: 0 <= m < |all| ==> all[m] < j)
    {
      assert all[0] == i && j !in taken;
    }
  }

  /** The scan takes, in page order, exactly the rows nothing holds back, until it has found enough. */
  lemma {:induction false} ScanSelects(t: Tables, page: seq<Slot>, looks: nat -> Option<Time>, i: nat, room: nat) returns (taken: seq<nat>)
    requires i <= |page| && forall k :: k in page ==> k in t.pending
    ensures Selects(t, page, looks, i, room, Scan(t, page[i..], looks, i, room), taken)
    decreases |page| - i
  {
    if i == |page| || room == 0 {
      taken := [];
    } else {
      assert page[i..][1..] == page[i + 1..];
      SkippedExactly(t, page[i], looks(i));
      if Skipped(t, page[i], looks(i)) {
        taken := ScanSelects(t, page, looks, i + 1, room);
      } else {
        var rest := ScanSelects(t, page, looks, i + 1, room - 1);
        SelectHead(t, page, looks, i, room, Scan(t, page[i + 1..], looks, i + 1, room - 1), rest, RecordOf(t, page[i]));
        taken := [i] + rest;
      }
    }
  }

  /** Row a comes before row b: earlier, or at the same time with a smaller id. */
  predicate Before(a: Slot, b: Slot) {
    a.at < b.at || (a.at == b.at && a.id < b.id)
  }

  lemma PendingSorted(t: Tables, i: nat, j: nat)
    requires i < j < |PendingRows(t)|
    ensures Before(PendingRows(t)[i], PendingRows(t)[j])
  {
    SlotOrder();
    ListingSorted(t.pending.Keys, SlotLess, i, j);
  }

  /** The page of a scan: the oldest pending rows in order, five times the limit of them but at least 100,
      where a limit below one counts as 100 and one above 2000 as 2000. */
  lemma PageOldest(t: Tables, limit: int)
    ensures var page, l := Page(t, limit), if limit < 1 then 100 else if limit > 2000 then 2000 else limit;
            && BatchLimit(limit) == l
            && |page| == Min(|t.pending|, if 5 * l < 100 then 100 else 5 * l)
            && (forall i, j :: 0 <= i < j < |page| ==> Before(page[i], page[j]))
            && (forall i, k :: 0 <= i < |page| && k in t.pending && k !in page ==> Before(page[i], k))
  {
    var rows, page := PendingRows(t), Page(t, limit);
    forall i, j | 0 <= i < j < |page| ensures Before(page[i], page[j]) {
      PendingSorted(t, i, j);
    }
    forall i, k | 0 <= i < |page| && k in t.pending && k !in page ensures Before(page[i], k) {
      var j :| 0 <= j < |rows| && rows[j] == k;
      assert j >= |page|;
      PendingSorted(t, i, j);
    }
  }

  /** How many rows of page[i..j] nothing holds back. */
  function Ahead(t: Tables, page: seq<Slot>, looks: nat -> Option<Time>, i: nat, j: nat): nat
    requires j <= |page|
    decreases j - i
  {
    if i >= j then 0 else (if Skipped(t, page[i], looks(i)) then 0 else 1) + Ahead(t, page, looks, i + 1, j)
  }

  /** A row that nothing holds back is returned unless enough such rows come before it. */
  lemma {:induction false} ScanReaches(t: Tables, page: seq<Slot>, looks: nat -> Option<Time>, i: nat, j: nat, room: nat)
    requires i <= j < |page| && forall k :: k in page ==> k in t.pending
    requires !Skipped(t, page[j], looks(j)) && Ahead(t, page, looks, i, j) < room
    ensures exists r :: r in Scan(t, page[i..], looks, i, room) && Carries(t, page[j], r)
    decreases j - i
  {
    assert page[i..][1..] == page[i + 1..];
    SkippedExactly(t, page[i], looks(i));
    var tail := if Skipped(t, page[i], looks(i)) then room else room - 1;
    if i == j {
      assert RecordOf(t, page[i]) in Scan(t, page[i..], looks, i, room) && Carries(t, page[j], RecordOf(t, page[i]));
    } else {
      ScanReaches(t, page, looks, i + 1, j, tail);
    }
  }

  // ---------- a new event ----------

  /** The rows of an event as its append leaves them, if no row of it was there before. */
  ghost predicate NewRows(t: Tables, id: EventId, row: EventRow) {
    && id in t.byId && t.byId[id] == row
    && StreamKey(row.body.stream, row.occurredAt, id) in t.byStream && t.byStream[StreamKey(row.body.stream, row.occurredAt, id)] == row.body
    && id in t.outbox && t.outbox[id] == OutboxRow(row.body, row.occurredAt, Pending, None, None)
    && Slot(row.occurredAt, id) in t.pending && t.pending[Slot(row.occurredAt, id)] == row.body
    && id in t.retry && t.retry[id] == RetryRow(0, row.occurredAt, "", "", Some(EPOCH), false, None, None)
  }

  /** From when on such an event can be handed out, and claimed. */
  lemma NewRowsDue(t: Tables, id: EventId, row: EventRow, u: Time)
    requires NewRows(t, id, row)
    ensures Eligible(t, id, u) <==> u >= row.occurredAt && u >= EPOCH
    ensures Held(t, id, u) <==> u < row.occurredAt || u < EPOCH
    ensures LeaseFree(t, id, u) <==> u > EPOCH
  {
  }

  lemma BatchWrites(t: Tables, id: EventId, row: EventRow)
    requires id !in t.outbox && id !in t.retry
    ensures NewRows(WriteEvent(t, id, row), id, row)
  {
  }

  lemma KeyLeavesEvents(t: Tables, key: Key, id: EventId, keyTime: Time, indexTime: Time)
    ensures var t' := InsertCreated(InsertKey(t, key, id, keyTime), key, id, indexTime); t'.outbox == t.outbox && t'.retry == t.retry
  {
  }

  /** A successful append of a new event: the event can be handed out from its own time on, and claimed at
      every time after the epoch. */
  lemma AppendedDue(t: Tables, req: Request, newId: EventId, keyTime: Time, indexTime: Time, f: nat -> Fault, u: Time)
    requires newId !in t.outbox && newId !in t.retry
    requires var r := AppendedUnder(t, req, newId, keyTime, indexTime, f).1; r.Ok? && !r.value.duplicate
    ensures var (t', r) := AppendedUnder(t, req, newId, keyTime, indexTime, f);
            && r.value == AppendResult(newId, req.row, req.key, false, false)
            && NewRows(t', newId, req.row)
            && (Eligible(t', newId, u) <==> u >= req.row.occurredAt && u >= EPOCH)
            && (LeaseFree(t', newId, u) <==> u > EPOCH)
  {
    var t1 := if req.key == "" then t else InsertCreated(InsertKey(t, KeyOf(req), newId, keyTime), KeyOf(req), newId, indexTime);
    KeyLeavesEvents(t, KeyOf(req), newId, keyTime, indexTime);
    BatchWrites(t1, newId, req.row);
    var t' := AppendedUnder(t, req, newId, keyTime, indexTime, f).0;
    assert t' == WriteEvent(t1, newId, req.row);
    NewRowsDue(t', newId, req.row, u);
  }

  /** A scan returns a new event at every reading from its own time on, if its row is on the page and fewer
      than the limit of rows before it are handed out. */
  lemma AppendedScanned(t: Tables, req: Request, newId: EventId, keyTime: Time, indexTime: Time, f: nat -> Fault,
                        limit: int, looks: nat -> Option<Time>, j: nat)
    requires newId !in t.outbox && newId !in t.retry
    requires var r := AppendedUnder(t, req, newId, keyTime, indexTime, f).1; r.Ok? && !r.value.duplicate
    requires var t' := AppendedUnder(t, req, newId, keyTime, indexTime, f).0; var page := Page(t', limit);
             && j < |page| && page[j] == Slot(req.row.occurredAt, newId) && Ahead(t', page, looks, 0, j) < BatchLimit(limit)
             && looks(j).Some? && looks(j).value >= req.row.occurredAt && looks(j).value >= EPOCH
    ensures var t' := AppendedUnder(t, req, newId, keyTime, indexTime, f).0;
            Record(newId, req.row.body, req.row.occurredAt, 0) in Scan(t', Page(t', limit), looks, 0, BatchLimit(limit))
  {
    var t' := AppendedUnder(t, req, newId, keyTime, indexTime, f).0;
    AppendedDue(t, req, newId, keyTime, indexTime, f, looks(j).value);
    NewRowsDue(t', newId, req.row, looks(j).value);
    ScanReaches(t', Page(t', limit), looks, 0, j, BatchLimit(limit));
    assert Page(t', limit)[0..] == Page(t', limit);
    var r :| r in Scan(t', Page(t', limit), looks, 0, BatchLimit(limit)) && Carries(t', Page(t', limit)[j], r);
    assert r == Record(newId, req.row.body, req.row.occurredAt, 0);
  }
}
