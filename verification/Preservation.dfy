/** Every move of every process keeps the invariant: first table by table,
    then statement by statement, then for the whole world. */
module Preservation {
  import opened Schema
  import opened Statements
  import opened Protocol
  import opened Invariant

  lemma Unnoted(h: History, p: Pid)
    ensures Rely(h, h, p)
  {
  }

  // ---------- the batch that stores a new event ----------

  lemma WriteCopies(t: Tables, orig: map<EventId, EventRow>, id: EventId, row: EventRow)
    requires CopiesAgree(t.byId, t.outbox, orig) && id !in orig
    ensures var t' := WriteEvent(t, id, row); CopiesAgree(t'.byId, t'.outbox, orig[id := row])
  {
  }

  lemma WriteStreams(t: Tables, orig: map<EventId, EventRow>, id: EventId, row: EventRow)
    requires StreamsAgree(t.byStream, orig) && id !in orig
    ensures StreamsAgree(t.byStream[StreamKeyOf(id, row) := row.body], orig[id := row])
  {
  }

  lemma WriteIndexed(t: Tables, id: EventId, row: EventRow)
    requires PendingIndexed(t.outbox, t.pending, t.retry) && id !in t.outbox
    ensures var t' := WriteEvent(t, id, row); PendingIndexed(t'.outbox, t'.pending, t'.retry)
  {
  }

  lemma WriteLetters(t: Tables, orig: map<EventId, EventRow>, id: EventId, row: EventRow)
    requires LettersMatch(t.deadByTime, t.deadById, orig) && id !in orig
    ensures LettersMatch(t.deadByTime, t.deadById, orig[id := row])
  {
  }

  lemma WriteReturns(h: History, id: EventId, row: EventRow)
    requires ReturnsHonest(h.results, h.orig, h.owners) && id !in h.orig
    ensures ReturnsHonest(h.results, h.orig[id := row], h.owners)
  {
    forall i | 0 <= i < |h.results| ensures ReturnOk(h.orig[id := row], h.owners, h.results[i]) {
      assert ReturnOk(h.orig, h.owners, h.results[i]);
    }
  }

  lemma WriteLog(log: seq<Message>, orig: map<EventId, EventRow>, id: EventId, row: EventRow)
    requires LogAgrees(log, orig) && id !in orig
    ensures LogAgrees(log, orig[id := row])
  {
    forall i | 0 <= i < |log| ensures MessageOk(orig[id := row], log[i]) {
      assert MessageOk(orig, log[i]);
    }
  }

  lemma WriteEmissions(h: History, id: EventId, row: EventRow)
    requires EmissionsClaimed(h.emitted, h.claims, h.orig) && id !in h.orig
    ensures EmissionsClaimed(h.emitted, h.claims, h.orig[id := row])
  {
    forall i | 0 <= i < |h.emitted| ensures EmissionOk(h.orig[id := row], h.claims, h.emitted[i]) {
      assert EmissionOk(h.orig, h.claims, h.emitted[i]);
    }
  }

  lemma WriteCounts(t: Tables, recorded: map<EventId, set<Token>>, limit: int, id: EventId, row: EventRow)
    requires CountsJustified(t.retry, recorded, limit)
    ensures CountsJustified(WriteEvent(t, id, row).retry, recorded, limit)
  {
  }

  lemma WriteAccepted(t: Tables, log: seq<Message>, id: EventId, row: EventRow)
    requires OnlyAcceptedPublished(t.outbox, log)
    ensures OnlyAcceptedPublished(WriteEvent(t, id, row).outbox, log)
  {
  }

  lemma WriteRely(h: History, p: Pid, id: EventId, row: EventRow)
    requires Holds(h, p, id)
    ensures Rely(h, h.(orig := h.orig[id := row]), p)
  {
  }

  lemma KeepAppendBatch(s: Shared, p: Pid, pc: Pc, c: Choice)
    requires SharedInv(s) && PcInv(s, p, pc) && pc.AppendBatch?
    ensures SharedInv(Perform(s, p, pc, c)) && Rely(s.h, Note(s, p, pc), p)
  {
    var id, row := pc.newId, pc.req.row;
    WriteRely(s.h, p, id, row);
    WriteCopies(s.t, s.h.orig, id, row);
    WriteStreams(s.t, s.h.orig, id, row);
    WriteIndexed(s.t, id, row);
    WriteLetters(s.t, s.h.orig, id, row);
    WriteReturns(s.h, id, row);
    WriteLog(s.h.log, s.h.orig, id, row);
    WriteEmissions(s.h, id, row);
    WriteCounts(s.t, s.h.recorded, s.cfg.policy.quarantineAfter, id, row);
    WriteAccepted(s.t, s.h.log, id, row);
  }

  // ---------- idempotency keys ----------

  lemma TakeKey(t: Tables, h: History, key: Key, id: EventId, now: Time)
    requires KeysOwned(t.keys, h.lives, h.owners) && key !in t.keys
    ensures KeyLife(key, Life(h.lives, key)) !in h.owners
    ensures KeysOwned(t.keys[key := KeyRow(id, now)], h.lives, h.owners[KeyLife(key, Life(h.lives, key)) := id])
  {
  }

  lemma OwnersGrow(h: History, own: KeyLife, id: EventId)
    requires ReturnsHonest(h.results, h.orig, h.owners) && own !in h.owners
    ensures ReturnsHonest(h.results, h.orig, h.owners[own := id])
  {
    forall i | 0 <= i < |h.results| ensures ReturnOk(h.orig, h.owners[own := id], h.results[i]) {
      assert ReturnOk(h.orig, h.owners, h.results[i]);
    }
  }

  lemma KeepAppendKey(s: Shared, p: Pid, pc: Pc, c: Choice)
    requires SharedInv(s) && PcInv(s, p, pc) && pc.AppendKey?
    ensures SharedInv(Perform(s, p, pc, c)) && Rely(s.h, Note(s, p, pc), p)
  {
    var key := KeyOf(pc.req);
    if pc.req.key != "" && key !in s.t.keys {
      TakeKey(s.t, s.h, key, pc.newId, c.now);
      OwnersGrow(s.h, KeyLife(key, Life(s.h.lives, key)), pc.newId);
    }
  }

  lemma DropKey(keys: map<Key, KeyRow>, h: History, key: Key)
    requires KeysOwned(keys, h.lives, h.owners)
    ensures KeysOwned(keys - {key}, h.lives[key := Life(h.lives, key) + 1], h.owners)
  {
    var lives' := h.lives[key := Life(h.lives, key) + 1];
    assert forall k :: k != key ==> Life(lives', k) == Life(h.lives, k);
  }

  lemma LivesRely(h: History, p: Pid, lives: map<Key, nat>)
    ensures Rely(h, h.(lives := lives), p)
  {
  }

  lemma KeyDropped(s: Shared, row: CreatedKey)
    requires SharedInv(s)
    ensures SharedInv(Shared(DeleteKey(s.t, row), s.h.(lives := s.h.lives[row.key := Life(s.h.lives, row.key) + 1]), s.cfg))
  {
    DropKey(s.t.keys, s.h, row.key);
  }

  lemma CleanedKey(s: Shared, p: Pid, pc: Pc, c: Choice)
    requires SharedInv(s) && pc.CleanKeys? && pc.stale != []
    ensures SharedInv(Perform(s, p, pc, c)) && Rely(s.h, Note(s, p, pc), p)
  {
    var row := pc.stale[0];
    var h' := s.h.(lives := s.h.lives[row.key := Life(s.h.lives, row.key) + 1]);
    KeyDropped(s, row);
    LivesRely(s.h, p, h'.lives);
    assert Perform(s, p, pc, c) == Shared(DeleteKey(s.t, row), h', s.cfg);
  }

  lemma KeepCleanKeys(s: Shared, p: Pid, pc: Pc, c: Choice)
    requires SharedInv(s) && PcInv(s, p, pc) && pc.CleanKeys?
    ensures SharedInv(Perform(s, p, pc, c)) && Rely(s.h, Note(s, p, pc), p)
  {
    if pc.stale == [] {
      Unnoted(s.h, p);
      assert Perform(s, p, pc, c) == s;
    } else {
      CleanedKey(s, p, pc, c);
    }
  }

  // ---------- publication, failure, lease ----------

  lemma MarkCopies(t: Tables, orig: map<EventId, EventRow>, id: EventId, occurredAt: Time, brokerId: string, now: Time)
    requires CopiesAgree(t.byId, t.outbox, orig) && id in orig
    ensures CopiesAgree(t.byId, MarkPublished(t, id, occurredAt, brokerId, now).outbox, orig)
  {
  }

  lemma MarkIndexed(t: Tables, id: EventId, brokerId: string, now: Time)
    requires PendingIndexed(t.outbox, t.pending, t.retry) && id in t.outbox
    ensures var t' := MarkPublished(t, id, t.outbox[id].occurredAt, brokerId, now); PendingIndexed(t'.outbox, t'.pending, t'.retry)
  {
  }

  lemma MarkAccepted(t: Tables, log: seq<Message>, id: EventId, occurredAt: Time, brokerId: string, now: Time)
    requires OnlyAcceptedPublished(t.outbox, log) && Accepted(log, id)
    ensures OnlyAcceptedPublished(MarkPublished(t, id, occurredAt, brokerId, now).outbox, log)
  {
  }

  lemma KeepMarkBatch(s: Shared, p: Pid, pc: Pc, c: Choice)
    requires SharedInv(s) && PcInv(s, p, pc) && pc.MarkBatch?
    ensures SharedInv(Perform(s, p, pc, c)) && Rely(s.h, Note(s, p, pc), p)
  {
    Unnoted(s.h, p);
    MarkCopies(s.t, s.h.orig, pc.id, pc.occurredAt, pc.brokerId, c.now);
    MarkIndexed(s.t, pc.id, pc.brokerId, c.now);
    MarkAccepted(s.t, s.h.log, pc.id, pc.occurredAt, pc.brokerId, c.now);
  }

  lemma GrowTokens(m: map<EventId, set<Token>>, id: EventId, token: Token, other: EventId)
    ensures Tokens(Grow(m, id, token), other) == if other == id then Tokens(m, id) + {token} else Tokens(m, other)
  {
  }

  lemma FailCounts(t: Tables, recorded: map<EventId, set<Token>>, limit: int, id: EventId, token: Token, row: RetryRow)
    requires CountsJustified(t.retry, recorded, limit) && token !in Tokens(recorded, id)
    requires row.retryCount <= |Tokens(recorded, id)| + 1 && (row.quarantined ==> row.retryCount >= limit)
    ensures CountsJustified(t.retry[id := row], Grow(recorded, id, token), limit)
  {
    var recorded' := Grow(recorded, id, token);
    forall k | k in t.retry[id := row] ensures t.retry[id := row][k].retryCount <= |Tokens(recorded', k)| {
      GrowTokens(recorded, id, token, k);
    }
  }

  lemma FailIndexed(t: Tables, id: EventId, row: RetryRow)
    requires PendingIndexed(t.outbox, t.pending, t.retry) && id in t.outbox && row.leaseUntil.Some?
    ensures PendingIndexed(t.outbox, t.pending, t.retry[id := row])
  {
  }

  lemma FailLetters(deadByTime: map<Slot, DeadRow>, recorded: map<EventId, set<Token>>, limit: int, id: EventId, token: Token)
    requires LettersJustified(deadByTime, recorded, limit) && token !in Tokens(recorded, id)
    ensures LettersJustified(deadByTime, Grow(recorded, id, token), limit)
  {
    forall k | k in deadByTime ensures |Tokens(recorded, k.id)| <= |Tokens(Grow(recorded, id, token), k.id)| {
      GrowTokens(recorded, id, token, k.id);
    }
  }

  lemma RecordIssued(recorded: map<EventId, set<Token>>, issued: map<EventId, set<Token>>, id: EventId, token: Token)
    requires RecordedIssued(recorded, issued) && token in Tokens(issued, id)
    ensures RecordedIssued(Grow(recorded, id, token), issued)
  {
    forall k: EventId ensures Tokens(Grow(recorded, id, token), k) <= Tokens(issued, k) {
      GrowTokens(recorded, id, token, k);
    }
  }

  lemma RecordRely(h: History, p: Pid, id: EventId, token: Token)
    requires token.pid == p
    ensures Rely(h, h.(recorded := Grow(h.recorded, id, token)), p)
  {
    forall k: EventId ensures Tokens(h.recorded, k) <= Tokens(Grow(h.recorded, id, token), k) <= Tokens(h.recorded, k) + {token} {
      GrowTokens(h.recorded, id, token, k);
    }
  }

  lemma KeepFailWrite(s: Shared, p: Pid, pc: Pc, c: Choice)
    requires SharedInv(s) && PcInv(s, p, pc) && pc.FailWrite?
    ensures SharedInv(Perform(s, p, pc, c)) && Rely(s.h, Note(s, p, pc), p)
    ensures pc.count <= |Tokens(Perform(s, p, pc, c).h.recorded, pc.id)|
  {
    var limit := s.cfg.policy.quarantineAfter;
    var row := Effect(s, pc, c).retry[pc.id];
    FailCounts(s.t, s.h.recorded, limit, pc.id, pc.token, row);
    FailIndexed(s.t, pc.id, row);
    FailLetters(s.t.deadByTime, s.h.recorded, limit, pc.id, pc.token);
    RecordIssued(s.h.recorded, s.h.issued, pc.id, pc.token);
    RecordRely(s.h, p, pc.id, pc.token);
    GrowTokens(s.h.recorded, pc.id, pc.token, pc.id);
  }

  lemma ClaimIndexed(t: Tables, id: EventId, owner: string, now: Time, duration: int)
    requires PendingIndexed(t.outbox, t.pending, t.retry)
    ensures PendingIndexed(t.outbox, t.pending, ClaimLease(t, id, owner, now, duration).retry)
  {
  }

  lemma ClaimCounts(t: Tables, recorded: map<EventId, set<Token>>, limit: int, id: EventId, owner: string, now: Time, duration: int)
    requires CountsJustified(t.retry, recorded, limit)
    ensures CountsJustified(ClaimLease(t, id, owner, now, duration).retry, recorded, limit)
  {
  }

  lemma KeepRelayClaim(s: Shared, p: Pid, pc: Pc, c: Choice)
    requires SharedInv(s) && PcInv(s, p, pc) && pc.RelayClaim?
    ensures SharedInv(Perform(s, p, pc, c)) && Rely(s.h, Note(s, p, pc), p)
  {
    Unnoted(s.h, p);
    if pc.queue != [] {
      ClaimIndexed(s.t, pc.queue[0].id, c.text, c.now, s.cfg.leaseMs);
      ClaimCounts(s.t, s.h.recorded, s.cfg.policy.quarantineAfter, pc.queue[0].id, c.text, c.now, s.cfg.leaseMs);
    }
  }

  // ---------- dead letters ----------

  lemma LetterMatches(t: Tables, orig: map<EventId, EventRow>, id: EventId, letter: DeadLetter)
    requires LettersMatch(t.deadByTime, t.deadById, orig) && id in orig && letter.row.body == orig[id].body
    ensures var t' := WriteDeadLetter(t, id, letter); LettersMatch(t'.deadByTime, t'.deadById, orig)
  {
  }

  lemma LetterJustified(t: Tables, recorded: map<EventId, set<Token>>, limit: int, id: EventId, letter: DeadLetter)
    requires LettersJustified(t.deadByTime, recorded, limit) && limit <= letter.row.retryCount <= |Tokens(recorded, id)|
    ensures LettersJustified(WriteDeadLetter(t, id, letter).deadByTime, recorded, limit)
  {
  }

  lemma KeepDeadBatch(s: Shared, p: Pid, pc: Pc, c: Choice)
    requires SharedInv(s) && PcInv(s, p, pc) && pc.DeadBatch?
    ensures SharedInv(Perform(s, p, pc, c)) && Rely(s.h, Note(s, p, pc), p)
  {
    Unnoted(s.h, p);
    LetterMatches(s.t, s.h.orig, pc.id, pc.letter);
    LetterJustified(s.t, s.h.recorded, s.cfg.policy.quarantineAfter, pc.id, pc.letter);
  }

  lemma LetterRemoved(t: Tables, orig: map<EventId, EventRow>, slot: Slot)
    requires LettersMatch(t.deadByTime, t.deadById, orig)
    ensures LettersMatch(t.deadByTime - {slot}, t.deadById - {slot.id}, orig)
  {
  }

  lemma LetterRemovedCounts(deadByTime: map<Slot, DeadRow>, recorded: map<EventId, set<Token>>, limit: int, slot: Slot)
    requires LettersJustified(deadByTime, recorded, limit)
    ensures LettersJustified(deadByTime - {slot}, recorded, limit)
  {
  }

  lemma KeepCleanDead(s: Shared, p: Pid, pc: Pc, c: Choice)
    requires SharedInv(s) && PcInv(s, p, pc) && pc.CleanDead?
    ensures SharedInv(Perform(s, p, pc, c)) && Rely(s.h, Note(s, p, pc), p)
  {
    Unnoted(s.h, p);
    if pc.slots != [] {
      LetterRemoved(s.t, s.h.orig, pc.slots[0]);
      LetterRemovedCounts(s.t.deadByTime, s.h.recorded, s.cfg.policy.quarantineAfter, pc.slots[0]);
    }
  }

  lemma ReplayCopies(t: Tables, orig: map<EventId, EventRow>, id: EventId, letter: DeadLetter, now: Time)
    requires CopiesAgree(t.byId, t.outbox, orig) && id in orig && letter.row.body == orig[id].body
    ensures CopiesAgree(t.byId, ReplayLetter(t, id, letter, orig[id].occurredAt, now).outbox, orig)
  {
  }

  lemma ReplayIndexed(t: Tables, id: EventId, letter: DeadLetter, now: Time)
    requires PendingIndexed(t.outbox, t.pending, t.retry) && id in t.outbox && letter.row.body == t.outbox[id].body
    ensures var t' := ReplayLetter(t, id, letter, t.outbox[id].occurredAt, now); PendingIndexed(t'.outbox, t'.pending, t'.retry)
  {
  }

  lemma ReplayCounts(t: Tables, recorded: map<EventId, set<Token>>, limit: int, id: EventId, letter: DeadLetter, occurredAt: Time, now: Time)
    requires CountsJustified(t.retry, recorded, limit) && letter.row.retryCount <= |Tokens(recorded, id)|
    ensures CountsJustified(ReplayLetter(t, id, letter, occurredAt, now).retry, recorded, limit)
  {
  }

  lemma ReplayAccepted(t: Tables, log: seq<Message>, id: EventId, letter: DeadLetter, occurredAt: Time, now: Time)
    requires OnlyAcceptedPublished(t.outbox, log)
    ensures OnlyAcceptedPublished(ReplayLetter(t, id, letter, occurredAt, now).outbox, log)
  {
  }

  lemma KeepReplayBatch(s: Shared, p: Pid, pc: Pc, c: Choice)
    requires SharedInv(s) && PcInv(s, p, pc) && pc.ReplayBatch?
    ensures SharedInv(Perform(s, p, pc, c)) && Rely(s.h, Note(s, p, pc), p)
  {
    Unnoted(s.h, p);
    var limit := s.cfg.policy.quarantineAfter;
    ReplayCopies(s.t, s.h.orig, pc.id, pc.letter, pc.now);
    ReplayIndexed(s.t, pc.id, pc.letter, pc.now);
    ReplayCounts(s.t, s.h.recorded, limit, pc.id, pc.letter, pc.occurredAt, pc.now);
    ReplayAccepted(s.t, s.h.log, pc.id, pc.letter, pc.occurredAt, pc.now);
    LetterRemoved(s.t, s.h.orig, Slot(pc.letter.at, pc.id));
    LetterRemovedCounts(s.t.deadByTime, s.h.recorded, limit, Slot(pc.letter.at, pc.id));
  }

  // ---------- consumers ----------

  lemma ClaimsGrow(h: History, key: InboxKey, p: Pid)
    requires EmissionsClaimed(h.emitted, h.claims, h.orig)
    ensures EmissionsClaimed(h.emitted, h.claims[key := p], h.orig)
  {
    forall i | 0 <= i < |h.emitted| ensures EmissionOk(h.orig, h.claims[key := p], h.emitted[i]) {
      assert EmissionOk(h.orig, h.claims, h.emitted[i]);
    }
  }

  lemma ClaimRely(h: History, key: InboxKey, p: Pid)
    requires key !in h.claims
    ensures Rely(h, h.(claims := h.claims[key := p]), p)
  {
  }

  lemma KeepClaimMessage(s: Shared, p: Pid, pc: Pc, c: Choice)
    requires SharedInv(s) && PcInv(s, p, pc) && pc.ClaimMessage?
    ensures SharedInv(Perform(s, p, pc, c)) && Rely(s.h, Note(s, p, pc), p)
  {
    var key := InboxKey(pc.consumer, pc.delivery.message);
    if pc.delivery.message.NoId? || key in s.t.inbox {
      Unnoted(s.h, p);
    } else {
      ClaimsGrow(s.h, key, p);
      ClaimRely(s.h, key, p);
    }
  }

  lemma EmitClaimed(h: History, p: Pid, e: Emission)
    requires EmissionsClaimed(h.emitted, h.claims, h.orig) && DeliveryOk(h.orig, e.delivery)
    requires !e.delivery.message.NoId? ==> EmissionKey(e) in h.claims && h.claims[EmissionKey(e)] == p && !WasEmitted(h.emitted, EmissionKey(e))
    ensures EmissionsClaimed(h.emitted + [e], h.claims, h.orig)
    ensures Rely(h, h.(emitted := h.emitted + [e]), p)
  {
    forall i, j | 0 <= i < j < |h.emitted + [e]| && !(h.emitted + [e])[i].delivery.message.NoId?
      ensures EmissionKey((h.emitted + [e])[i]) != EmissionKey((h.emitted + [e])[j])
    {
      if j == |h.emitted| && EmissionKey(h.emitted[i]) == EmissionKey(e) {
        assert WasEmitted(h.emitted, EmissionKey(e));
      }
    }
  }

  lemma KeepEmit(s: Shared, p: Pid, pc: Pc, c: Choice)
    requires SharedInv(s) && PcInv(s, p, pc) && pc.Emit?
    ensures SharedInv(Perform(s, p, pc, c)) && Rely(s.h, Note(s, p, pc), p)
  {
    EmitClaimed(s.h, p, Emission(pc.consumer, pc.delivery));
  }

  lemma KeepAppendIndex(s: Shared, p: Pid, pc: Pc, c: Choice)
    requires SharedInv(s) && PcInv(s, p, pc) && pc.AppendIndex?
    ensures SharedInv(Perform(s, p, pc, c)) && Rely(s.h, Note(s, p, pc), p)
  {
    Unnoted(s.h, p);
  }
}
