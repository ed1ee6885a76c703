/** Quarantine, replay and the two dead-letter views in histories of whole operations. */
module DeadLetters {
  import opened Schema
  import opened Statements
  import opened Protocol
  import opened Invariant
  import opened Operations
  import opened Cleanup
  import opened EventLetters
  import opened QuarantineReplay
  import Backoff

  // ---------- quarantine and replay ----------

  /** The next recorded failure of the event reaches the limit. */
  predicate AtLimit(t: Tables, id: EventId, policy: Backoff.Policy) {
    RetryCountOf(t, id) + 1 >= policy.quarantineAfter
  }

  /** A quarantining failure writes the retry row and one letter in both views. */
  lemma QuarantineWrites(t: Tables, id: EventId, error: string, policy: Backoff.Policy, draw: nat, now: Time)
    requires id in t.outbox && AtLimit(t, id, policy)
    ensures var count := RetryCountOf(t, id) + 1;
            var row := DeadRow(t.outbox[id].body, count, error);
            var (t1, f) := Failed(t, id, error, policy, draw, now);
            && f == Failure(true, count, None)
            && id in t1.retry && t1.retry[id].quarantined && t1.retry[id].retryCount == count
            && t1 == t.(retry := t.retry[id := t1.retry[id]], deadByTime := t.deadByTime[Slot(now, id) := row],
                        deadById := t.deadById[id := DeadLetter(now, row)])
  {
  }

  // ---------- the two views ----------

  /** Both views hold the same letters. */
  ghost predicate ViewsCoincide(t: Tables) {
    && (forall k :: k in t.deadByTime ==> k.id in t.deadById && t.deadById[k.id] == DeadLetter(k.at, t.deadByTime[k]))
    && (forall id :: id in t.deadById ==> Slot(t.deadById[id].at, id) in t.deadByTime)
  }

  /** The failure writes a second letter beside an older one that is still there. */
  predicate DoublesLetter(t: Tables, id: EventId, policy: Backoff.Policy, now: Time) {
    AtLimit(t, id, policy) && id in t.outbox && id in t.deadById && t.deadById[id].at != now
  }

  lemma LetterWritten(t: Tables, id: EventId, letter: DeadLetter)
    requires ViewsCoincide(t)
    ensures ViewsCoincide(WriteDeadLetter(t, id, letter)) <==> (id in t.deadById ==> t.deadById[id].at == letter.at)
  {
    var t' := WriteDeadLetter(t, id, letter);
    if id in t.deadById && t.deadById[id].at != letter.at {
      assert Slot(t.deadById[id].at, id) in t'.deadByTime;
    }
  }

  lemma ViewsOfLetters(t: Tables, t': Tables)
    requires t'.deadByTime == t.deadByTime && t'.deadById == t.deadById
    ensures ViewsCoincide(t') <==> ViewsCoincide(t)
  {
  }

  lemma FailureLetters(t: Tables, id: EventId, error: string, limit: int, next: Time, now: Time)
    ensures var (t', f) := FailedUntil(t, id, error, limit, next, now);
            if f.quarantined && id in t.outbox then
              var letter := DeadLetter(now, DeadRow(t.outbox[id].body, f.count, error));
              t'.deadByTime == WriteDeadLetter(t, id, letter).deadByTime && t'.deadById == WriteDeadLetter(t, id, letter).deadById
            else t'.deadByTime == t.deadByTime && t'.deadById == t.deadById
    ensures FailedUntil(t, id, error, limit, next, now).1.quarantined <==> RetryCountOf(t, id) + 1 >= limit
  {
  }

  lemma UntilViews(t: Tables, id: EventId, error: string, limit: int, next: Time, now: Time)
    requires ViewsCoincide(t)
    ensures ViewsCoincide(FailedUntil(t, id, error, limit, next, now).0) <==>
            !(RetryCountOf(t, id) + 1 >= limit && id in t.outbox && id in t.deadById && t.deadById[id].at != now)
  {
    var (t', f) := FailedUntil(t, id, error, limit, next, now);
    FailureLetters(t, id, error, limit, next, now);
    if f.quarantined && id in t.outbox {
      var letter := DeadLetter(now, DeadRow(t.outbox[id].body, f.count, error));
      LetterWritten(t, id, letter);
      ViewsOfLetters(WriteDeadLetter(t, id, letter), t');
    } else {
      ViewsOfLetters(t, t');
    }
  }

  /** A recorded failure keeps the views equal exactly when it does not double a dead letter. */
  lemma FailureViewsExact(t: Tables, id: EventId, error: string, policy: Backoff.Policy, draw: nat, now: Time)
    requires ViewsCoincide(t)
    ensures ViewsCoincide(Failed(t, id, error, policy, draw, now).0) <==> !DoublesLetter(t, id, policy, now)
  {
    UntilViews(t, id, error, policy.quarantineAfter, NextDue(t, id, policy, draw, now), now);
  }

  lemma ReplayViews(t: Tables, id: EventId, now: Time)
    requires ViewsCoincide(t)
    ensures ViewsCoincide(Replayed(t, id, now).0)
  {
  }

  lemma DeleteViews(t: Tables, slot: Slot)
    requires ViewsCoincide(t) && slot in t.deadByTime
    ensures ViewsCoincide(DeleteDeadLetter(t, slot))
  {
  }

  lemma {:induction false} PassViews(t: Tables, rows: seq<Slot>, works: nat -> Fault, at: nat)
    requires ViewsCoincide(t) && (forall k :: k in rows ==> k in t.deadByTime) && DistinctRows(rows)
    ensures ViewsCoincide(DeleteDeadLetters(t, rows, works, at).0)
    decreases |rows|
  {
    if rows != [] {
      var t1 := if !works(at).Refused? then DeleteDeadLetter(t, rows[0]) else t;
      assert rows[0] in rows;
      if !works(at).Refused? { DeleteViews(t, rows[0]); }
      assert forall k :: k in rows[1..] ==> k in t1.deadByTime;
      PassViews(t1, rows[1..], works, at + 1);
    }
  }

  /** Whole operations, one after the other. */
  datatype Op =
    | OpAppend(req: Request, newId: EventId, keyTime: Time, indexTime: Time)
    | OpMark(id: EventId, brokerId: string, now: Time)
    | OpClaim(id: EventId, owner: string, now: Time, duration: int)
    | OpFail(id: EventId, error: string, policy: Backoff.Policy, draw: nat, now: Time)
    | OpReplay(id: EventId, now: Time)
    | OpClean(keyCutoff: Time, deadCutoff: Time, limit: int, keyWorks: nat -> Fault, deadWorks: nat -> Fault)

  function Apply(t: Tables, op: Op): Tables {
    match op
    case OpAppend(req, newId, keyTime, indexTime) => Appended(t, req, newId, keyTime, indexTime).0
    case OpMark(id, brokerId, now) => Marked(t, id, brokerId, now).0
    case OpClaim(id, owner, now, duration) => ClaimLease(t, id, owner, now, duration)
    case OpFail(id, error, policy, draw, now) => Failed(t, id, error, policy, draw, now).0
    case OpReplay(id, now) => Replayed(t, id, now).0
    case OpClean(keyCutoff, deadCutoff, limit, keyWorks, deadWorks) =>
      var t1 := DeleteKeys(t, ExpiredKeys(t, keyCutoff, limit), keyWorks, 0).0;
      DeleteDeadLetters(t1, ExpiredLetters(t1, deadCutoff, limit), deadWorks, 0).0
  }

  /** The same operation as the store performs it when its statements work; deletions of a cleanup keep their own fates. */
  function Performed(t: Tables, op: Op): Tables {
    match op
    case OpAppend(req, newId, keyTime, indexTime) => AppendedUnder(t, req, newId, keyTime, indexTime, WORKING).0
    case OpMark(id, brokerId, now) => MarkedUnder(t, id, brokerId, now, WORKING).0
    case OpClaim(id, owner, now, duration) => Left(t, ClaimLease(t, id, owner, now, duration), Fine)
    case OpFail(id, error, policy, draw, now) => FailedUnder(t, id, error, policy, draw, now, WORKING).0
    case OpReplay(id, now) => ReplayedUnder(t, id, now, WORKING).0
    case OpClean(keyCutoff, deadCutoff, limit, keyWorks, deadWorks) =>
      CleanedUnder(t, keyCutoff, deadCutoff, limit, Fine, keyWorks, Fine, deadWorks).0
  }

  /** Histories of whole operations are histories of the store's own operations. */
  lemma ApplyPerforms(t: Tables, op: Op)
    ensures Apply(t, op) == Performed(t, op)
  {
    match op
    case OpAppend(req, newId, keyTime, indexTime) => WorkingAppend(t, req, newId, keyTime, indexTime);
    case OpMark(id, brokerId, now) => WorkingMark(t, id, brokerId, now);
    case OpClaim(_, _, _, _) =>
    case OpFail(id, error, policy, draw, now) => WorkingFailure(t, id, error, policy, draw, now);
    case OpReplay(id, now) => WorkingReplay(t, id, now);
    case OpClean(_, _, _, _, _) =>
  }

  function ApplyAll(t: Tables, ops: seq<Op>): Tables
    decreases |ops|
  {
    if ops == [] then t else ApplyAll(Apply(t, ops[0]), ops[1..])
  }

  /** No failure of the history is recorded while its event is still dead-lettered. */
  predicate NeverDoubles(t: Tables, ops: seq<Op>)
    decreases |ops|
  {
    ops == [] || ((ops[0].OpFail? ==> !DoublesLetter(t, ops[0].id, ops[0].policy, ops[0].now)) && NeverDoubles(Apply(t, ops[0]), ops[1..]))
  }

  lemma {:induction false} KeyPassLetters(t: Tables, rows: seq<CreatedKey>, works: nat -> Fault, at: nat)
    ensures var t' := DeleteKeys(t, rows, works, at).0; t'.deadByTime == t.deadByTime && t'.deadById == t.deadById
    decreases |rows|
  {
    if rows != [] {
      KeyPassLetters(if !works(at).Refused? then DeleteKey(t, rows[0]) else t, rows[1..], works, at + 1);
    }
  }

  predicate LettersEqual(t: Tables, t': Tables) {
    t'.deadByTime == t.deadByTime && t'.deadById == t.deadById
  }

  lemma AppendLetters(t: Tables, req: Request, newId: EventId, keyTime: Time, indexTime: Time)
    ensures LettersEqual(t, Appended(t, req, newId, keyTime, indexTime).0)
  {
    var t1 := InsertKey(t, KeyOf(req), newId, keyTime);
    var t2 := InsertCreated(t1, KeyOf(req), newId, indexTime);
    assert LettersEqual(t, t1) && LettersEqual(t1, t2) && LettersEqual(t2, WriteEvent(t2, newId, req.row));
    assert LettersEqual(t, WriteEvent(t, newId, req.row));
  }

  lemma MarkLetters(t: Tables, id: EventId, brokerId: string, now: Time)
    ensures LettersEqual(t, Marked(t, id, brokerId, now).0)
  {
  }

  /** Appends, marks and claims do not touch the letters. */
  lemma OtherOpsLetters(t: Tables, op: Op)
    requires op.OpAppend? || op.OpMark? || op.OpClaim?
    ensures LettersEqual(t, Apply(t, op))
  {
    match op
    case OpAppend(req, newId, keyTime, indexTime) => AppendLetters(t, req, newId, keyTime, indexTime);
    case OpMark(id, brokerId, now) => MarkLetters(t, id, brokerId, now);
    case OpClaim(_, _, _, _) =>
  }

  lemma ApplyViews(t: Tables, op: Op)
    requires ViewsCoincide(t) && (op.OpFail? ==> !DoublesLetter(t, op.id, op.policy, op.now))
    ensures ViewsCoincide(Apply(t, op))
  {
    match op
    case OpFail(id, error, policy, draw, now) => FailureViewsExact(t, id, error, policy, draw, now);
    case OpReplay(id, now) => ReplayViews(t, id, now);
    case OpClean(_, _, _, _, _) => CleanViews(t, op);
    case _ => OtherOpsLetters(t, op);
  }

  lemma LetterPassViews(t: Tables, cutoff: Time, limit: int, works: nat -> Fault)
    requires ViewsCoincide(t)
    ensures ViewsCoincide(DeleteDeadLetters(t, ExpiredLetters(t, cutoff, limit), works, 0).0)
  {
    ExpiredLettersListed(t, cutoff, limit);
    PassViews(t, ExpiredLetters(t, cutoff, limit), works, 0);
  }

  lemma KeyPassViews(t: Tables, rows: seq<CreatedKey>, works: nat -> Fault)
    requires ViewsCoincide(t)
    ensures ViewsCoincide(DeleteKeys(t, rows, works, 0).0)
  {
    KeyPassLetters(t, rows, works, 0);
  }

  lemma CleanViews(t: Tables, op: Op)
    requires ViewsCoincide(t) && op.OpClean?
    ensures ViewsCoincide(Apply(t, op))
  {
    var rows := ExpiredKeys(t, op.keyCutoff, op.limit);
    KeyPassViews(t, rows, op.keyWorks);
    LetterPassViews(DeleteKeys(t, rows, op.keyWorks, 0).0, op.deadCutoff, op.limit, op.deadWorks);
  }

  /** In every history of whole operations in which no failure is recorded while its event is
      still dead-lettered, the two dead-letter views coincide. */
  lemma {:induction false} ViewsCoincideAlways(t: Tables, ops: seq<Op>)
    requires ViewsCoincide(t) && NeverDoubles(t, ops)
    ensures ViewsCoincide(ApplyAll(t, ops))
    decreases |ops|
  {
    if ops != [] {
      ApplyViews(t, ops[0]);
      ViewsCoincideAlways(Apply(t, ops[0]), ops[1..]);
    }
  }

  /** Two failures in a row that quarantine an event double its dead letter: the older one stays in the
      by-time view only. */
  lemma SecondFailureDoubles()
    ensures var policy := Backoff.Policy(50 * Backoff.MS, 200 * Backoff.MS, 0, 1);
            var append := OpAppend(Request("", EventRow(0, Body("s", "", "", ""))), 1, 0, 0);
            var t := ApplyAll(EMPTY, [append, OpFail(1, "e", policy, 0, 5), OpFail(1, "e", policy, 0, 6)]);
            !ViewsCoincide(t) && Slot(5, 1) in t.deadByTime && 1 in t.deadById && t.deadById[1].at == 6
  {
    var policy := Backoff.Policy(50 * Backoff.MS, 200 * Backoff.MS, 0, 1);
    var body := Body("s", "", "", "");
    var append := OpAppend(Request("", EventRow(0, body)), 1, 0, 0);
    var f5, f6 := OpFail(1, "e", policy, 0, 5), OpFail(1, "e", policy, 0, 6);
    var t1 := Apply(EMPTY, append);
    assert t1.deadById == map[] && t1.deadByTime == map[] && 1 in t1.outbox && RetryCountOf(t1, 1) == 0;
    QuarantineWrites(t1, 1, "e", policy, 0, 5);
    var t2 := Apply(t1, f5);
    assert RetryCountOf(t2, 1) == 1 && 1 in t2.outbox;
    QuarantineWrites(t2, 1, "e", policy, 0, 6);
    var t3 := Apply(t2, f6);
    assert Slot(5, 1) in t3.deadByTime && t3.deadById[1].at == 6;
    ThreeOps(EMPTY, append, f5, f6);
  }

  lemma ThreeOps(t: Tables, a: Op, b: Op, c: Op)
    ensures ApplyAll(t, [a, b, c]) == Apply(Apply(Apply(t, a), b), c)
  {
    assert [a, b, c][1..] == [b, c] && [b, c][1..] == [c] && [c][1..] == [];
    assert ApplyAll(Apply(Apply(t, a), b), [c]) == Apply(Apply(Apply(t, a), b), c);
  }

  // ---------- quarantine and replay, with other operations in between ----------

  /** The dead letters an operation cleans up. */
  function Cleaned(t: Tables, op: Op): seq<Slot>
    requires op.OpClean?
  {
    ExpiredLetters(DeleteKeys(t, ExpiredKeys(t, op.keyCutoff, op.limit), op.keyWorks, 0).0, op.deadCutoff, op.limit)
  }

  /** The operation is on the event. */
  predicate OnEvent(t: Tables, op: Op, id: EventId) {
    match op
    case OpAppend(_, newId, _, _) => newId == id
    case OpMark(i, _, _) => i == id
    case OpClaim(i, _, _, _) => i == id
    case OpFail(i, _, _, _, _) => i == id
    case OpReplay(i, _) => i == id
    case OpClean(_, _, _, _, _) => exists i :: 0 <= i < |Cleaned(t, op)| && Cleaned(t, op)[i].id == id
  }

  predicate NoneOnEvent(t: Tables, ops: seq<Op>, id: EventId)
    decreases |ops|
  {
    ops == [] || (!OnEvent(t, ops[0], id) && NoneOnEvent(Apply(t, ops[0]), ops[1..], id))
  }

  lemma FieldsFrame(t: Tables, t': Tables, id: EventId)
    requires t'.outbox == t.outbox && t'.pending == t.pending && t'.deadByTime == t.deadByTime && t'.deadById == t.deadById
    ensures SameRows(t, t', id)
  {
  }

  lemma WriteFrame(t: Tables, newId: EventId, row: EventRow, id: EventId)
    requires newId != id
    ensures SameRows(t, WriteEvent(t, newId, row), id)
  {
  }

  lemma AppendFrame(t: Tables, req: Request, newId: EventId, keyTime: Time, indexTime: Time, id: EventId)
    requires newId != id
    ensures SameRows(t, Appended(t, req, newId, keyTime, indexTime).0, id)
  {
    FieldsFrame(t, t, id);
    if req.key == "" {
      WriteFrame(t, newId, req.row, id);
    } else if KeyOf(req) !in t.keys {
      var t2 := InsertCreated(InsertKey(t, KeyOf(req), newId, keyTime), KeyOf(req), newId, indexTime);
      FieldsFrame(t, t2, id);
      WriteFrame(t2, newId, req.row, id);
      SameTrans(t, t2, WriteEvent(t2, newId, req.row), id);
    }
  }

  lemma DeadFrame(t: Tables, other: EventId, letter: DeadLetter, id: EventId)
    requires other != id
    ensures SameRows(t, WriteDeadLetter(t, other, letter), id)
  {
  }

  lemma UntilFrame(t: Tables, other: EventId, error: string, limit: int, next: Time, now: Time, id: EventId)
    requires other != id
    ensures SameRows(t, FailedUntil(t, other, error, limit, next, now).0, id)
  {
    var count := RetryCountOf(t, other) + 1;
    var t1 := WriteFailure(t, other, count, next, error, count >= limit, now, FirstFailure(t, other, now));
    FieldsFrame(t, t1, id);
    if count >= limit && other in t1.outbox {
      var letter := DeadLetter(now, DeadRow(t1.outbox[other].body, count, error));
      DeadFrame(t1, other, letter, id);
      SameTrans(t, t1, WriteDeadLetter(t1, other, letter), id);
    }
  }

  lemma LetterFrameOf(t: Tables, other: EventId, letter: DeadLetter, occurredAt: Time, now: Time, id: EventId)
    requires other != id
    ensures SameRows(t, ReplayLetter(t, other, letter, occurredAt, now), id)
  {
  }

  lemma ReplayFrame(t: Tables, other: EventId, now: Time, id: EventId)
    requires other != id
    ensures SameRows(t, Replayed(t, other, now).0, id)
  {
    if other in t.deadById {
      LetterFrameOf(t, other, t.deadById[other], if other in t.outbox then t.outbox[other].occurredAt else now, now, id);
    }
  }

  lemma MarkFrame(t: Tables, other: EventId, brokerId: string, now: Time, id: EventId)
    requires other != id
    ensures SameRows(t, Marked(t, other, brokerId, now).0, id)
  {
    FieldsFrame(t, t, id);
    if other in t.outbox {
      MarkedFrame(t, other, t.outbox[other].occurredAt, brokerId, now, id);
    }
  }

  lemma MarkedFrame(t: Tables, other: EventId, occurredAt: Time, brokerId: string, now: Time, id: EventId)
    requires other != id
    ensures SameRows(t, MarkPublished(t, other, occurredAt, brokerId, now), id)
  {
  }

  lemma ClaimFrame(t: Tables, other: EventId, owner: string, now: Time, duration: int, id: EventId)
    ensures SameRows(t, ClaimLease(t, other, owner, now, duration), id)
  {
    FieldsFrame(t, ClaimLease(t, other, owner, now, duration), id);
  }

  lemma {:induction false} KeysFrame(t: Tables, rows: seq<CreatedKey>, works: nat -> Fault, at: nat, id: EventId)
    ensures SameRows(t, DeleteKeys(t, rows, works, at).0, id)
    decreases |rows|
  {
    if rows != [] {
      var t1 := if !works(at).Refused? then DeleteKey(t, rows[0]) else t;
      KeysFrame(t1, rows[1..], works, at + 1, id);
    }
  }

  lemma SlotFrame(t: Tables, slot: Slot, id: EventId)
    requires slot.id != id
    ensures SameRows(t, DeleteDeadLetter(t, slot), id)
  {
  }

  lemma {:induction false} LettersFrame(t: Tables, rows: seq<Slot>, works: nat -> Fault, at: nat, id: EventId)
    requires forall i :: 0 <= i < |rows| ==> rows[i].id != id
    ensures SameRows(t, DeleteDeadLetters(t, rows, works, at).0, id)
    decreases |rows|
  {
    if rows != [] {
      var t1 := if !works(at).Refused? then DeleteDeadLetter(t, rows[0]) else t;
      if works(at).Refused? { FieldsFrame(t, t1, id); } else { SlotFrame(t, rows[0], id); }
      LettersFrame(t1, rows[1..], works, at + 1, id);
      SameTrans(t, t1, DeleteDeadLetters(t1, rows[1..], works, at + 1).0, id);
    }
  }

  lemma CleanFrame(t: Tables, op: Op, id: EventId)
    requires op.OpClean? && !OnEvent(t, op, id)
    ensures SameRows(t, Apply(t, op), id)
  {
    var rows := ExpiredKeys(t, op.keyCutoff, op.limit);
    var t1 := DeleteKeys(t, rows, op.keyWorks, 0).0;
    KeysFrame(t, rows, op.keyWorks, 0, id);
    LettersFrame(t1, Cleaned(t, op), op.deadWorks, 0, id);
    SameTrans(t, t1, Apply(t, op), id);
  }

  lemma ApplyFrame(t: Tables, op: Op, id: EventId)
    requires !OnEvent(t, op, id)
    ensures SameRows(t, Apply(t, op), id)
  {
    match op
    case OpAppend(req, newId, keyTime, indexTime) => AppendFrame(t, req, newId, keyTime, indexTime, id);
    case OpMark(other, brokerId, now) => MarkFrame(t, other, brokerId, now, id);
    case OpClaim(other, owner, now, duration) => ClaimFrame(t, other, owner, now, duration, id);
    case OpFail(other, error, policy, draw, now) =>
      UntilFrame(t, other, error, policy.quarantineAfter, NextDue(t, other, policy, draw, now), now, id);
    case OpReplay(other, now) => ReplayFrame(t, other, now, id);
    case OpClean(_, _, _, _, _) => CleanFrame(t, op, id);
  }

  lemma {:induction false} ApplyAllFrame(t: Tables, ops: seq<Op>, id: EventId)
    requires NoneOnEvent(t, ops, id)
    ensures SameRows(t, ApplyAll(t, ops), id)
    decreases |ops|
  {
    if ops != [] {
      ApplyFrame(t, ops[0], id);
      ApplyAllFrame(Apply(t, ops[0]), ops[1..], id);
      SameTrans(t, Apply(t, ops[0]), ApplyAll(t, ops), id);
    }
  }

  /** Quarantining a pending event without earlier dead letter and replaying it after any operations on
      other events restores every row of the event but its retry row, where the count is kept and the
      event is free to go at once. */
  lemma QuarantineReplayRoundTrip(t: Tables, id: EventId, error: string, policy: Backoff.Policy, draw: nat, now: Time, ops: seq<Op>, later: Time)
    requires PendingIndexed(t.outbox, t.pending, t.retry)
    requires id in t.outbox && t.outbox[id].state == Pending
    requires id !in t.deadById && forall k :: k in t.deadByTime ==> k.id != id
    requires AtLimit(t, id, policy) && NoneOnEvent(Failed(t, id, error, policy, draw, now).0, ops, id)
    ensures var (t1, f) := Failed(t, id, error, policy, draw, now);
            var (t3, r) := Replayed(ApplyAll(t1, ops), id, later);
            && f == Failure(true, RetryCountOf(t, id) + 1, None) && r.Ok?
            && SameRows(t, t3, id) && id in t3.retry && t3.retry[id].retryCount == f.count
            && (forall u :: u >= later && u > EPOCH ==> Eligible(t3, id, u) && LeaseFree(t3, id, u))
  {
    var t1 := Failed(t, id, error, policy, draw, now).0;
    QuarantineWrites(t, id, error, policy, draw, now);
    ApplyAllFrame(t1, ops, id);
    var t2, letter := ApplyAll(t1, ops), t1.deadById[id];
    assert Slot(t.outbox[id].occurredAt, id) in t.pending;
    LetterOut(t2, id, letter, t.outbox[id].occurredAt, later);
  }

  // ---------- failures after a replay ----------

  /** No operation of the history marks or stores the event. */
  predicate NoReset(ops: seq<Op>, id: EventId) {
    forall i :: 0 <= i < |ops| ==> !(ops[i].OpMark? && ops[i].id == id) && !(ops[i].OpAppend? && ops[i].newId == id)
  }

  /** The retry count of the event, and the one in its dead letter, have reached n. */
  predicate Reached(t: Tables, id: EventId, n: int) {
    id in t.outbox && RetryCountOf(t, id) >= n && (id in t.deadById ==> t.deadById[id].row.retryCount >= n)
  }

  lemma UntilReached(t: Tables, other: EventId, error: string, limit: int, next: Time, now: Time, id: EventId, n: int)
    requires Reached(t, id, n)
    ensures Reached(FailedUntil(t, other, error, limit, next, now).0, id, n)
  {
    var count := RetryCountOf(t, other) + 1;
    var t1 := WriteFailure(t, other, count, next, error, count >= limit, now, FirstFailure(t, other, now));
    assert Reached(t1, id, n);
    if count >= limit && other in t1.outbox {
      LetterReached(t1, other, DeadLetter(now, DeadRow(t1.outbox[other].body, count, error)), id, n);
    }
  }

  lemma LetterReached(t: Tables, other: EventId, letter: DeadLetter, id: EventId, n: int)
    requires Reached(t, id, n) && (other == id ==> letter.row.retryCount >= n)
    ensures Reached(WriteDeadLetter(t, other, letter), id, n)
  {
  }

  lemma {:induction false} KeysReached(t: Tables, rows: seq<CreatedKey>, works: nat -> Fault, at: nat, id: EventId, n: int)
    requires Reached(t, id, n)
    ensures Reached(DeleteKeys(t, rows, works, at).0, id, n)
    decreases |rows|
  {
    if rows != [] { KeysReached(if !works(at).Refused? then DeleteKey(t, rows[0]) else t, rows[1..], works, at + 1, id, n); }
  }

  lemma {:induction false} LettersReached(t: Tables, rows: seq<Slot>, works: nat -> Fault, at: nat, id: EventId, n: int)
    requires Reached(t, id, n)
    ensures Reached(DeleteDeadLetters(t, rows, works, at).0, id, n)
    decreases |rows|
  {
    if rows != [] { LettersReached(if !works(at).Refused? then DeleteDeadLetter(t, rows[0]) else t, rows[1..], works, at + 1, id, n); }
  }

  lemma AppendReached(t: Tables, req: Request, newId: EventId, keyTime: Time, indexTime: Time, id: EventId, n: int)
    requires Reached(t, id, n) && newId != id
    ensures Reached(Appended(t, req, newId, keyTime, indexTime).0, id, n)
  {
    if req.key == "" {
      WriteReached(t, newId, req.row, id, n);
    } else if KeyOf(req) !in t.keys {
      var t2 := InsertCreated(InsertKey(t, KeyOf(req), newId, keyTime), KeyOf(req), newId, indexTime);
      assert t2.outbox == t.outbox && t2.retry == t.retry && t2.deadById == t.deadById;
      WriteReached(t2, newId, req.row, id, n);
    }
  }

  lemma WriteReached(t: Tables, newId: EventId, row: EventRow, id: EventId, n: int)
    requires Reached(t, id, n) && newId != id
    ensures Reached(WriteEvent(t, newId, row), id, n)
  {
  }

  lemma ApplyReached(t: Tables, op: Op, id: EventId, n: int)
    requires Reached(t, id, n) && !(op.OpMark? && op.id == id) && !(op.OpAppend? && op.newId == id)
    ensures Reached(Apply(t, op), id, n)
  {
    match op
    case OpAppend(req, newId, keyTime, indexTime) => AppendReached(t, req, newId, keyTime, indexTime, id, n);
    case OpMark(_, _, _) =>
    case OpClaim(_, _, _, _) =>
    case OpFail(other, error, policy, draw, now) =>
      UntilReached(t, other, error, policy.quarantineAfter, NextDue(t, other, policy, draw, now), now, id, n);
    case OpReplay(_, _) =>
    case OpClean(keyCutoff, deadCutoff, limit, keyWorks, deadWorks) =>
      KeysReached(t, ExpiredKeys(t, keyCutoff, limit), keyWorks, 0, id, n);
      var t1 := DeleteKeys(t, ExpiredKeys(t, keyCutoff, limit), keyWorks, 0).0;
      LettersReached(t1, ExpiredLetters(t1, deadCutoff, limit), deadWorks, 0, id, n);
  }

  lemma {:induction false} ApplyAllReached(t: Tables, ops: seq<Op>, id: EventId, n: int)
    requires Reached(t, id, n) && NoReset(ops, id)
    ensures Reached(ApplyAll(t, ops), id, n)
    decreases |ops|
  {
    if ops != [] {
      ApplyReached(t, ops[0], id, n);
      ApplyAllReached(Apply(t, ops[0]), ops[1..], id, n);
    }
  }

  /** After a replay every recorded failure quarantines the event again, whatever operations come first,
      as long as none of them marks it published. */
  lemma ReplayedFailsAgain(t: Tables, id: EventId, policy: Backoff.Policy, now: Time, ops: seq<Op>, error: string, draw: nat, later: Time)
    requires id in t.outbox && id in t.deadById && t.deadById[id].row.retryCount >= policy.quarantineAfter && NoReset(ops, id)
    ensures var (t', f) := Failed(ApplyAll(Replayed(t, id, now).0, ops), id, error, policy, draw, later);
            f.quarantined && f.error == None && id in t'.retry && t'.retry[id].quarantined && id in t'.deadById && t'.deadById[id].at == later
  {
    var t1 := Replayed(t, id, now).0;
    assert Reached(t1, id, policy.quarantineAfter);
    ApplyAllReached(t1, ops, id, policy.quarantineAfter);
    QuarantineWrites(ApplyAll(t1, ops), id, error, policy, draw, later);
  }
}
