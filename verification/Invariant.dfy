/** The inductive invariant of the protocol, and what a move of one process
    guarantees to all the others. */
module Invariant {
  import opened Schema
  import opened Statements
  import opened Protocol
  import opened Collections

  /** The by-id and outbox copies of an event equal the event as first appended. */
  ghost predicate CopiesAgree(byId: map<EventId, EventRow>, outbox: map<EventId, OutboxRow>, orig: map<EventId, EventRow>) {
    && byId == orig
    && outbox.Keys == orig.Keys
    && (forall id :: id in outbox ==> outbox[id].body == orig[id].body && outbox[id].occurredAt == orig[id].occurredAt)
  }

  function StreamKeyOf(id: EventId, row: EventRow): StreamKey {
    StreamKey(row.body.stream, row.occurredAt, id)
  }

  /** So does the by-stream copy: one row per event, and no other. */
  ghost predicate StreamsAgree(byStream: map<StreamKey, Body>, orig: map<EventId, EventRow>) {
    && (forall id :: id in orig ==> StreamKeyOf(id, orig[id]) in byStream)
    && (forall k :: k in byStream ==> k.id in orig && byStream[k] == orig[k.id].body && k == StreamKeyOf(k.id, orig[k.id]))
  }

  /** The pending index holds exactly the pending outbox rows, and each has a retry row that can be leased. */
  ghost predicate PendingIndexed(outbox: map<EventId, OutboxRow>, pending: map<Slot, Body>, retry: map<EventId, RetryRow>) {
    && (forall id :: id in retry ==> id in outbox && retry[id].leaseUntil.Some?)
    && (forall k :: k in pending ==>
          k.id in outbox && outbox[k.id].state == Pending && k.at == outbox[k.id].occurredAt && pending[k] == outbox[k.id].body)
    && (forall id :: id in outbox && outbox[id].state == Pending ==> Slot(outbox[id].occurredAt, id) in pending && id in retry)
  }

  predicate Accepted(log: seq<Message>, id: EventId) {
    exists i :: 0 <= i < |log| && log[i].id == id
  }

  ghost predicate OnlyAcceptedPublished(outbox: map<EventId, OutboxRow>, log: seq<Message>) {
    forall id :: id in outbox && outbox[id].state == Published ==> Accepted(log, id)
  }

  /** The message carries the original subject and payload of its event. */
  predicate MessageOk(orig: map<EventId, EventRow>, m: Message) {
    m.id in orig && m == MessageOf(m.id, orig[m.id].body)
  }

  /** The broker only ever accepted original content. */
  ghost predicate LogAgrees(log: seq<Message>, orig: map<EventId, EventRow>) {
    forall i :: 0 <= i < |log| ==> MessageOk(orig, log[i])
  }

  /** Every dead letter found by id is also listed by time, with the same fields and the original content. */
  ghost predicate LettersMatch(deadByTime: map<Slot, DeadRow>, deadById: map<EventId, DeadLetter>, orig: map<EventId, EventRow>) {
    && (forall k :: k in deadByTime ==> k.id in orig && deadByTime[k].body == orig[k.id].body)
    && (forall id :: id in deadById ==>
          Slot(deadById[id].at, id) in deadByTime && deadByTime[Slot(deadById[id].at, id)] == deadById[id].row)
  }

  /** Retry counts never run ahead of the recorded failures. */
  ghost predicate CountsJustified(retry: map<EventId, RetryRow>, recorded: map<EventId, set<Token>>, limit: int) {
    forall id :: id in retry ==>
      retry[id].retryCount <= |Tokens(recorded, id)| && (retry[id].quarantined ==> retry[id].retryCount >= limit)
  }

  ghost predicate LettersJustified(deadByTime: map<Slot, DeadRow>, recorded: map<EventId, set<Token>>, limit: int) {
    forall k :: k in deadByTime ==> limit <= deadByTime[k].retryCount <= |Tokens(recorded, k.id)|
  }

  /** A failure is recorded only for a publication round that failed. */
  ghost predicate RecordedIssued(recorded: map<EventId, set<Token>>, issued: map<EventId, set<Token>>) {
    forall id :: Tokens(recorded, id) <= Tokens(issued, id)
  }

  /** A live key belongs to the event that owns its current life; a clean key has no current owner. */
  ghost predicate KeysOwned(keys: map<Key, KeyRow>, lives: map<Key, nat>, owners: map<KeyLife, EventId>) {
    && (forall key :: key in keys ==> KeyLife(key, Life(lives, key)) in owners && owners[KeyLife(key, Life(lives, key))] == keys[key].id)
    && (forall o :: o in owners ==> o.life <= Life(lives, o.key) && (o.life == Life(lives, o.key) ==> o.key in keys))
  }

  predicate ReturnOk(orig: map<EventId, EventRow>, owners: map<KeyLife, EventId>, r: AppendReturn) {
    && r.id in orig && r.event == orig[r.id]
    && (r.owner.Some? ==> r.owner.value in owners && owners[r.owner.value] == r.id)
  }

  /** Appends return stored events; only one return per event claims to have created it. */
  ghost predicate ReturnsHonest(results: seq<AppendReturn>, orig: map<EventId, EventRow>, owners: map<KeyLife, EventId>) {
    && (forall i :: 0 <= i < |results| ==> ReturnOk(orig, owners, results[i]))
    && (forall i, j :: 0 <= i < j < |results| && !results[i].duplicate && !results[j].duplicate ==> results[i].id != results[j].id)
  }

  predicate DeliveryOk(orig: map<EventId, EventRow>, d: Delivery) {
    d.message.EventMsg? ==> MessageOk(orig, Message(d.message.id, d.subject, d.payload))
  }

  function EmissionKey(e: Emission): InboxKey {
    InboxKey(e.consumer, e.delivery.message)
  }

  predicate WasEmitted(emitted: seq<Emission>, key: InboxKey) {
    exists i :: 0 <= i < |emitted| && EmissionKey(emitted[i]) == key
  }

  predicate EmissionOk(orig: map<EventId, EventRow>, claims: map<InboxKey, Pid>, e: Emission) {
    DeliveryOk(orig, e.delivery) && (!e.delivery.message.NoId? ==> EmissionKey(e) in claims)
  }

  /** What a consumer wrote out was claimed before, and written once. */
  ghost predicate EmissionsClaimed(emitted: seq<Emission>, claims: map<InboxKey, Pid>, orig: map<EventId, EventRow>) {
    && (forall i :: 0 <= i < |emitted| ==> EmissionOk(orig, claims, emitted[i]))
    && (forall i, j :: 0 <= i < j < |emitted| && !emitted[i].delivery.message.NoId? ==> EmissionKey(emitted[i]) != EmissionKey(emitted[j]))
  }

  ghost predicate SharedInv(s: Shared) {
    var t, h := s.t, s.h;
    && Sound(s.cfg)
    && h.orig.Keys <= h.holder.Keys
    && CopiesAgree(t.byId, t.outbox, h.orig)
    && StreamsAgree(t.byStream, h.orig)
    && PendingIndexed(t.outbox, t.pending, t.retry)
    && OnlyAcceptedPublished(t.outbox, h.log)
    && LogAgrees(h.log, h.orig)
    && LettersMatch(t.deadByTime, t.deadById, h.orig)
    && CountsJustified(t.retry, h.recorded, s.cfg.policy.quarantineAfter)
    && LettersJustified(t.deadByTime, h.recorded, s.cfg.policy.quarantineAfter)
    && RecordedIssued(h.recorded, h.issued)
    && KeysOwned(t.keys, h.lives, h.owners)
    && ReturnsHonest(h.results, h.orig, h.owners)
    && h.claims.Keys == t.inbox.Keys
    && EmissionsClaimed(h.emitted, h.claims, h.orig)
  }

  /** A relay record carries original content and a retry count that recorded failures justify. */
  predicate RecordOk(h: History, r: Record) {
    && r.id in h.orig && r.body == h.orig[r.id].body && r.occurredAt == h.orig[r.id].occurredAt
    && r.retryCount <= |Tokens(h.recorded, r.id)|
  }

  predicate QueueOk(h: History, queue: seq<Record>) {
    forall i :: 0 <= i < |queue| ==> RecordOk(h, queue[i])
  }

  predicate Holds(h: History, p: Pid, id: EventId) {
    id in h.holder && h.holder[id] == p && id !in h.orig
  }

  predicate Owns(h: History, own: KeyLife, id: EventId) {
    own in h.owners && h.owners[own] == id
  }

  predicate LetterOk(s: Shared, id: EventId, letter: DeadLetter) {
    && id in s.h.orig && letter.row.body == s.h.orig[id].body
    && s.cfg.policy.quarantineAfter <= letter.row.retryCount <= |Tokens(s.h.recorded, id)|
  }

  /** The failed round of p that is on its way into the retry row. */
  predicate InFlight(h: History, p: Pid, id: EventId, token: Token) {
    id in h.orig && token.pid == p && token in Tokens(h.issued, id) && token !in Tokens(h.recorded, id)
  }

  /** What the local variables of a process may be relied on to say, whatever others do. */
  ghost predicate PcInv(s: Shared, p: Pid, pc: Pc) {
    var h := s.h;
    match pc
    case AppendKey(req, newId) => Holds(h, p, newId)
    case AppendIndex(req, newId, own, _) => Holds(h, p, newId) && own.key == KeyOf(req) && Owns(h, own, newId)
    case AppendBatch(req, newId, owned) => Holds(h, p, newId) && (owned.Some? ==> Owns(h, owned.value, newId))
    case AppendRead(existing, own) => Owns(h, own, existing)
    case AppendState(existing, own, row) => Owns(h, own, existing) && existing in h.orig && row == h.orig[existing]
    case Publish(msg, _, rest) => MessageOk(h.orig, msg) && QueueOk(h, rest)
    case MarkRead(id, _, rest) => id in h.orig && Accepted(h.log, id) && QueueOk(h, rest)
    case MarkBatch(id, _, occurredAt, rest) =>
      id in h.orig && occurredAt == h.orig[id].occurredAt && Accepted(h.log, id) && QueueOk(h, rest)
    case FailRead(id, token, rest) => InFlight(h, p, id, token) && QueueOk(h, rest)
    case FailWrite(id, token, count, _, rest) =>
      InFlight(h, p, id, token) && 1 <= count <= |Tokens(h.recorded, id)| + 1 && QueueOk(h, rest)
    case DeadRead(id, count, _, _, rest) =>
      id in h.orig && s.cfg.policy.quarantineAfter <= count <= |Tokens(h.recorded, id)| && QueueOk(h, rest)
    case DeadBatch(id, letter, rest) => LetterOk(s, id, letter) && QueueOk(h, rest)
    case RelayCheck(page, bodies, out, _) =>
      && (forall i :: 0 <= i < |page| ==> page[i] in bodies && page[i].id in h.orig && bodies[page[i]] == h.orig[page[i].id].body
                                          && page[i].at == h.orig[page[i].id].occurredAt)
      && QueueOk(h, out)
    case RelayClaim(queue) => QueueOk(h, queue)
    case ReplayFind(id, letter, _) => LetterOk(s, id, letter)
    case ReplayBatch(id, letter, occurredAt, _) => LetterOk(s, id, letter) && occurredAt == h.orig[id].occurredAt
    case ClaimMessage(_, d) => DeliveryOk(h.orig, d)
    case Emit(consumer, d) =>
      && DeliveryOk(h.orig, d)
      && (!d.message.NoId? ==>
            var key := InboxKey(consumer, d.message);
            key in h.claims && h.claims[key] == p && !WasEmitted(h.emitted, key))
    case _ => true
  }

  ghost predicate Extends<K, V>(m: map<K, V>, m': map<K, V>) {
    forall k :: k in m ==> k in m' && m'[k] == m[k]
  }

  /** What a move of p guarantees to every other process. */
  ghost predicate Rely(h: History, h': History, p: Pid) {
    && Extends(h.holder, h'.holder)
    && Extends(h.orig, h'.orig)
    && (forall id :: id in h'.orig && id !in h.orig && id in h.holder ==> h.holder[id] == p)
    && h.log <= h'.log
    && Extends(h.owners, h'.owners)
    && TokensKept(h.issued, h'.issued)
    && TokensKept(h.recorded, h'.recorded)
    && (forall id, k :: k in Tokens(h'.recorded, id) && k !in Tokens(h.recorded, id) ==> k.pid == p)
    && Extends(h.claims, h'.claims)
    && h.emitted <= h'.emitted
    && (forall i :: |h.emitted| <= i < |h'.emitted| && !h'.emitted[i].delivery.message.NoId? ==>
          EmissionKey(h'.emitted[i]) in h'.claims && h'.claims[EmissionKey(h'.emitted[i])] == p)
    && h.results <= h'.results
  }

  ghost predicate Inv(w: World) {
    && SharedInv(w.s)
    && (forall p :: p in w.procs ==> PcInv(w.s, p, w.procs[p]))
  }

  /** Recorded failures are never forgotten. */
  ghost predicate TokensKept(m: map<EventId, set<Token>>, m': map<EventId, set<Token>>) {
    forall id :: Tokens(m, id) <= Tokens(m', id)
  }

  lemma QueueStable(h: History, h': History, queue: seq<Record>)
    requires Extends(h.orig, h'.orig) && TokensKept(h.recorded, h'.recorded) && QueueOk(h, queue)
    ensures QueueOk(h', queue)
  {
    forall i | 0 <= i < |queue| ensures RecordOk(h', queue[i]) {
      assert RecordOk(h, queue[i]);
      SubsetSize(Tokens(h.recorded, queue[i].id), Tokens(h'.recorded, queue[i].id));
    }
  }

  lemma AcceptedStable(log: seq<Message>, log': seq<Message>, id: EventId)
    requires log <= log' && Accepted(log, id)
    ensures Accepted(log', id)
  {
    var i :| 0 <= i < |log| && log[i].id == id;
    assert log'[i] == log[i];
  }

  lemma CountStable(h: History, h': History, p: Pid, id: EventId)
    requires Rely(h, h', p)
    ensures |Tokens(h.recorded, id)| <= |Tokens(h'.recorded, id)|
  {
    SubsetSize(Tokens(h.recorded, id), Tokens(h'.recorded, id));
  }

  /** A local assertion of q survives a move of any other process. */
  lemma Stable(s: Shared, s': Shared, p: Pid, q: Pid, pc: Pc)
    requires Rely(s.h, s'.h, p) && s'.cfg == s.cfg && p != q && PcInv(s, q, pc)
    ensures PcInv(s', q, pc)
  {
    match pc
    case Publish(msg, _, rest) => QueueStable(s.h, s'.h, rest);
    case MarkRead(id, _, rest) =>
      QueueStable(s.h, s'.h, rest);
      AcceptedStable(s.h.log, s'.h.log, id);
    case MarkBatch(id, _, _, rest) =>
      QueueStable(s.h, s'.h, rest);
      AcceptedStable(s.h.log, s'.h.log, id);
    case FailRead(id, _, rest) => QueueStable(s.h, s'.h, rest);
    case FailWrite(id, _, _, _, rest) =>
      QueueStable(s.h, s'.h, rest);
      CountStable(s.h, s'.h, p, id);
    case DeadRead(id, _, _, _, rest) =>
      QueueStable(s.h, s'.h, rest);
      CountStable(s.h, s'.h, p, id);
    case DeadBatch(id, _, rest) =>
      QueueStable(s.h, s'.h, rest);
      CountStable(s.h, s'.h, p, id);
    case RelayCheck(_, _, out, _) => QueueStable(s.h, s'.h, out);
    case RelayClaim(queue) => QueueStable(s.h, s'.h, queue);
    case ReplayFind(id, _, _) => CountStable(s.h, s'.h, p, id);
    case ReplayBatch(id, _, _, _) => CountStable(s.h, s'.h, p, id);
    case Emit(consumer, d) =>
      if !d.message.NoId? {
        var key := InboxKey(consumer, d.message);
        forall i | 0 <= i < |s'.h.emitted| ensures EmissionKey(s'.h.emitted[i]) != key {
          if i < |s.h.emitted| {
            assert s'.h.emitted[i] == s.h.emitted[i];
          }
        }
      }
    case _ =>
  }
}
