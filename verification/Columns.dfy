/** What the remaining writes leave in the columns they name, and that they leave everything else alone: once
    for whole operations under faults, once for the statements of the protocol in every world of the invariant. */
module Columns {
  import opened Schema
  import opened Statements
  import opened Protocol
  import opened Operations
  import opened Handout
  import opened Invariant
  import opened Moves
  import opened Guarantees

  // ---------- the published mark ----------

  /** The outbox row is published at this time under this broker id; the index row and the retry row are gone. */
  ghost predicate MarkedRows(t: Tables, t': Tables, id: EventId, brokerId: string, now: Time) {
    && id in t.outbox
    && t' == t.(
         outbox := t.outbox[id := OutboxRow(t.outbox[id].body, t.outbox[id].occurredAt, Published, Some(now), Some(brokerId))],
         pending := t.pending - {Slot(t.outbox[id].occurredAt, id)},
         retry := t.retry - {id})
  }

  lemma MarkWrites(t: Tables, id: EventId, brokerId: string, now: Time)
    requires id in t.outbox
    ensures MarkedRows(t, MarkPublished(t, id, t.outbox[id].occurredAt, brokerId, now), id, brokerId, now)
  {
  }

  /** The mark changes the tables exactly when it finds the event and its batch is not refused. */
  lemma MarkedColumns(t: Tables, id: EventId, brokerId: string, now: Time, f: nat -> Fault)
    ensures var (t', r) := MarkedUnder(t, id, brokerId, now, f);
            && (r.Ok? <==> f(0).Fine? && f(1).Fine? && id in t.outbox)
            && (f(0).Fine? && id in t.outbox && !f(1).Refused? ==> MarkedRows(t, t', id, brokerId, now))
            && (!f(0).Fine? || id !in t.outbox || f(1).Refused? ==> t' == t)
  {
    if id in t.outbox { MarkWrites(t, id, brokerId, now); }
  }

  lemma MarkFinds(s: Shared, p: Pid, pc: Pc)
    requires SharedInv(s) && PcInv(s, p, pc) && pc.MarkBatch?
    ensures pc.id in s.t.outbox && pc.occurredAt == s.t.outbox[pc.id].occurredAt
  {
  }

  lemma MarkBatchColumns(w: World, e: Event, id: EventId)
    requires Inv(w) && Enabled(w, e) && Marks(w, e, id)
    ensures MarkedRows(w.s.t, Next(w, e).s.t, id, w.procs[e.p].brokerId, e.c.now)
  {
    var pc := w.procs[e.p];
    MarkFinds(w.s, e.p, pc);
    StepTables(w.s, e.p, pc, e.c);
    MarkWrites(w.s.t, id, pc.brokerId, e.c.now);
  }

  // ---------- the lease ----------

  /** The stored lease is over: set, and before now. */
  predicate LeaseOver(t: Tables, id: EventId, now: Time) {
    id in t.retry && t.retry[id].leaseUntil != None && t.retry[id].leaseUntil.value < now
  }

  /** Owner and expiry of the retry row are new, all else is as before. */
  ghost predicate LeasedRows(t: Tables, t': Tables, id: EventId, owner: string, until: Time) {
    && id in t.retry && id in t'.retry
    && t' == t.(retry := t.retry[id := t'.retry[id]])
    && var q, q' := t.retry[id], t'.retry[id];
       && q'.leaseOwner == owner && q'.leaseUntil == Some(until)
       && q'.retryCount == q.retryCount && q'.nextAttempt == q.nextAttempt && q'.lastError == q.lastError
       && q'.quarantined == q.quarantined && q'.quarantinedAt == q.quarantinedAt && q'.firstFailed == q.firstFailed
  }

  lemma ClaimWrites(t: Tables, id: EventId, owner: string, now: Time, duration: int)
    ensures LeaseFree(t, id, now) <==> LeaseOver(t, id, now)
    ensures LeaseOver(t, id, now) ==> LeasedRows(t, ClaimLease(t, id, owner, now, duration), id, owner, now + duration)
    ensures !LeaseOver(t, id, now) ==> ClaimLease(t, id, owner, now, duration) == t
  {
  }

  /** A relay's claim of the first record of its batch takes the lease exactly when the stored one is over and
      the statement executes, and leads to publishing exactly that record when the answer arrives too; in all
      other cases the relay goes on with the rest of its batch. */
  lemma ClaimExact(w: World, p: Pid, c: Choice)
    requires p in w.procs && w.procs[p].RelayClaim? && w.procs[p].queue != []
    ensures var w', queue := Next(w, Move(p, c)), w.procs[p].queue;
            var over := LeaseOver(w.s.t, queue[0].id, c.now);
            && (over && !c.fault.Refused? ==> LeasedRows(w.s.t, w'.s.t, queue[0].id, c.text, c.now + w.s.cfg.leaseMs))
            && (!over || c.fault.Refused? ==> w'.s.t == w.s.t)
            && w'.procs[p] == if over && c.fault.Fine?
                              then Publish(Message(queue[0].id, queue[0].body.subject, queue[0].body.payload), 1, queue[1..])
                              else Resume(queue[1..])
  {
    StepTables(w.s, p, w.procs[p], c);
    ClaimWrites(w.s.t, w.procs[p].queue[0].id, c.text, c.now, w.s.cfg.leaseMs);
  }

  // ---------- the dead letter ----------

  ghost predicate LetterRows(t: Tables, t': Tables, id: EventId, at: Time, row: DeadRow) {
    t' == t.(deadByTime := t.deadByTime[Slot(at, id) := row], deadById := t.deadById[id := DeadLetter(at, row)])
  }

  /** The letter of a quarantining failure: the outbox content, the count, the error and the time, in both views. */
  lemma LetteredColumns(t: Tables, id: EventId, count: nat, error: string, now: Time, f: nat -> Fault)
    ensures var (t', r) := LetteredUnder(t, id, count, error, now, f);
            && r.quarantined && r.count == count && (r.error == None <==> f(2).Fine? && f(3).Fine? && id in t.outbox)
            && (f(2).Fine? && id in t.outbox && !f(3).Refused? ==> LetterRows(t, t', id, now, DeadRow(t.outbox[id].body, count, error)))
            && (!f(2).Fine? || id !in t.outbox || f(3).Refused? ==> t' == t)
  {
  }

  // ---------- the replay ----------

  /** The event is pending again with the content of its letter; its retry row has the count of the letter and
      is due at once; the letter is gone from both views. */
  ghost predicate ReplayedRows(t: Tables, t': Tables, id: EventId, letter: DeadLetter, now: Time) {
    var occurredAt := if id in t.outbox then t.outbox[id].occurredAt else now;
    && id in t'.outbox && id in t'.retry
    && t' == t.(
         outbox := t.outbox[id := t'.outbox[id]],
         pending := t.pending[Slot(occurredAt, id) := letter.row.body],
         retry := t.retry[id := t'.retry[id]],
         deadByTime := t.deadByTime - {Slot(letter.at, id)},
         deadById := t.deadById - {id})
    && t'.outbox[id] == OutboxRow(letter.row.body, occurredAt, Pending,
                                  if id in t.outbox then t.outbox[id].publishedAt else None,
                                  if id in t.outbox then t.outbox[id].brokerId else None)
    && t'.retry[id] == RetryRow(letter.row.retryCount, now, "", "", Some(EPOCH), false, Some(EPOCH),
                                if id in t.retry then t.retry[id].firstFailed else None)
  }

  lemma ReplayWrites(t: Tables, id: EventId, letter: DeadLetter, now: Time)
    ensures var occurredAt := if id in t.outbox then t.outbox[id].occurredAt else now;
            ReplayedRows(t, ReplayLetter(t, id, letter, occurredAt, now), id, letter, now)
  {
  }

  lemma ReplayedRowsDue(t: Tables, t': Tables, id: EventId, letter: DeadLetter, now: Time, u: Time)
    requires ReplayedRows(t, t', id, letter, now)
    ensures Eligible(t', id, u) <==> u >= now && u >= EPOCH
    ensures LeaseFree(t', id, u) <==> u > EPOCH
  {
  }

  /** A replay changes the tables exactly when it finds the letter and its batch is not refused; then the event
      can be handed out from that moment on, and claimed at every time after the epoch. */
  lemma ReplayedColumns(t: Tables, id: EventId, now: Time, f: nat -> Fault, u: Time)
    ensures var (t', r) := ReplayedUnder(t, id, now, f);
            && (r.Ok? <==> f(0).Fine? && f(1).Fine? && f(2).Fine? && id in t.deadById)
            && (f(0).Fine? && f(1).Fine? && !f(2).Refused? && id in t.deadById ==>
                  ReplayedRows(t, t', id, t.deadById[id], now)
                  && (Eligible(t', id, u) <==> u >= now && u >= EPOCH) && (LeaseFree(t', id, u) <==> u > EPOCH))
            && (!f(0).Fine? || !f(1).Fine? || f(2).Refused? || id !in t.deadById ==> t' == t)
  {
    if id in t.deadById {
      ReplayWrites(t, id, t.deadById[id], now);
      var occurredAt := if id in t.outbox then t.outbox[id].occurredAt else now;
      ReplayedRowsDue(t, ReplayLetter(t, id, t.deadById[id], occurredAt, now), id, t.deadById[id], now, u);
    }
  }

  lemma ReplayNames(s: Shared, p: Pid, pc: Pc)
    requires PcInv(s, p, pc) && pc.ReplayBatch?
    ensures pc.id in s.h.orig && pc.occurredAt == s.h.orig[pc.id].occurredAt
  {
  }

  lemma ReplayEffect(s: Shared, pc: Pc, c: Choice, u: Time)
    requires CopiesAgree(s.t.byId, s.t.outbox, s.h.orig) && pc.ReplayBatch?
    requires pc.id in s.h.orig && pc.occurredAt == s.h.orig[pc.id].occurredAt
    ensures var t' := Effect(s, pc, c);
            && ReplayedRows(s.t, t', pc.id, pc.letter, pc.now)
            && (Eligible(t', pc.id, u) <==> u >= pc.now && u >= EPOCH) && (LeaseFree(t', pc.id, u) <==> u > EPOCH)
  {
    ReplayWrites(s.t, pc.id, pc.letter, pc.now);
    ReplayedRowsDue(s.t, Effect(s, pc, c), pc.id, pc.letter, pc.now, u);
  }

  lemma ReplayBatchColumns(w: World, e: Event, u: Time)
    requires Inv(w) && Enabled(w, e) && Executes(w, e) && w.procs[e.p].ReplayBatch?
    ensures var pc, t' := w.procs[e.p], Next(w, e).s.t;
            && ReplayedRows(w.s.t, t', pc.id, pc.letter, pc.now)
            && (Eligible(t', pc.id, u) <==> u >= pc.now && u >= EPOCH) && (LeaseFree(t', pc.id, u) <==> u > EPOCH)
  {
    ReplayNames(w.s, e.p, w.procs[e.p]);
    StepTables(w.s, e.p, w.procs[e.p], e.c);
    ReplayEffect(w.s, w.procs[e.p], e.c, u);
  }

  // ---------- the key of an append ----------

  /** A successful append under a key: if the key was free it now names the new event, at the time of the claim,
      and is indexed at the time of the second statement; otherwise nothing changes, and the answer is the
      stored event of the key with its publish state. */
  lemma AppendedColumns(t: Tables, req: Request, newId: EventId, keyTime: Time, indexTime: Time, f: nat -> Fault)
    requires req.key != "" && AppendedUnder(t, req, newId, keyTime, indexTime, f).1.Ok?
    ensures var (t', r) := AppendedUnder(t, req, newId, keyTime, indexTime, f);
            var key := Key(req.row.body.stream, req.key);
            && (r.value.duplicate <==> key in t.keys)
            && (key !in t.keys ==>
                  && t'.keys == t.keys[key := KeyRow(newId, keyTime)]
                  && t'.byCreated == t.byCreated[CreatedKey(indexTime, key) := newId])
            && (key in t.keys ==>
                  var id := t.keys[key].id;
                  && t' == t && id in t.byId && id in t.outbox
                  && r.value == AppendResult(id, t.byId[id], req.key, true, t.outbox[id].state == Published))
  {
  }

  /** A duplicate of the protocol: it reports the stored event with its publish state, and goes on to publish
      the event if and only if it is still pending. */
  lemma DuplicateExact(w: World, p: Pid, c: Choice)
    requires Inv(w) && p in w.procs && w.procs[p].AppendState? && c.fault.Fine?
    ensures var w', pc := Next(w, Move(p, c)), w.procs[p];
            && pc.existing in w.s.t.outbox
            && var published := w.s.t.outbox[pc.existing].state == Published;
               && w'.s.t == w.s.t
               && w'.s.h.results == w.s.h.results + [AppendReturn(Some(pc.own), pc.existing, w.s.h.orig[pc.existing], true, published)]
               && w'.procs[p] == if published then Done
                                 else Publish(Message(pc.existing, w.s.h.orig[pc.existing].body.subject, w.s.h.orig[pc.existing].body.payload), 1, [])
  {
    assert PcInv(w.s, p, w.procs[p]);
    ExistingStored(w.s, p, w.procs[p]);
    StepTables(w.s, p, w.procs[p], c);
  }

  lemma ExistingStored(s: Shared, p: Pid, pc: Pc)
    requires SharedInv(s) && PcInv(s, p, pc) && pc.AppendState?
    ensures pc.existing in s.t.outbox && pc.existing in s.h.orig && pc.row == s.h.orig[pc.existing]
  {
  }

  /** Where a publisher starts: with the request as given, but for an empty stream, which means "default". */
  lemma PublisherBegins(w: World, p: Pid, req: Request, newId: EventId)
    requires Enabled(w, Begin(p, PublishTask(req, newId)))
    ensures var pc := Next(w, Begin(p, PublishTask(req, newId))).procs[p];
            && (if req.key == "" then pc.AppendBatch? && pc.owned == None else pc.AppendKey?)
            && pc.newId == newId && pc.req.key == req.key && pc.req.row.occurredAt == req.row.occurredAt
            && pc.req.row.body == Body(if req.row.body.stream == "" then "default" else req.row.body.stream,
                                       req.row.body.subject, req.row.body.eventType, req.row.body.payload)
  {
  }
}
