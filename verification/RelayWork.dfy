/** How much a lone relay can still do: a potential that every claimed event uses up. */
module RelayWork {
  import opened Schema
  import opened Statements
  import opened Ordering
  import opened Protocol
  import opened Invariant
  import opened Preservation
  import opened Operations
  import opened Relay
  import opened Columns
  import opened DueTimes
  import Backoff

  /** The event is pending and not quarantined. */
  predicate Active(t: Tables, id: EventId) {
    id in t.outbox && t.outbox[id].state == Pending && id in t.retry && !t.retry[id].quarantined
  }

  /** The rounds an event can still use: until quarantine, and at least one. */
  function Weight(t: Tables, limit: int, id: EventId): nat {
    if Active(t, id) then Backoff.Max(1, limit - t.retry[id].retryCount) else 0
  }

  ghost function Total(t: Tables, limit: int, ids: set<EventId>): nat
    decreases |ids|
  {
    if ids == {} then 0 else
    var id :| id in ids;
    Weight(t, limit, id) + Total(t, limit, ids - {id})
  }

  /** The sum over all pending, not quarantined events of max(1, quarantineAfter - retryCount). */
  ghost function Potential(t: Tables, limit: int): nat {
    Total(t, limit, t.outbox.Keys)
  }

  lemma {:induction false} TotalTake(t: Tables, limit: int, ids: set<EventId>, id: EventId)
    requires id in ids
    ensures Total(t, limit, ids) == Weight(t, limit, id) + Total(t, limit, ids - {id})
    decreases |ids|
  {
    var x :| x in ids && Total(t, limit, ids) == Weight(t, limit, x) + Total(t, limit, ids - {x});
    if x != id {
      TotalTake(t, limit, ids - {x}, id);
      TotalTake(t, limit, ids - {id}, x);
      assert ids - {x} - {id} == ids - {id} - {x};
    }
  }

  lemma {:induction false} TotalSame(t: Tables, t': Tables, limit: int, ids: set<EventId>)
    requires forall id :: id in ids ==> Weight(t', limit, id) == Weight(t, limit, id)
    ensures Total(t', limit, ids) == Total(t, limit, ids)
    decreases |ids|
  {
    if ids != {} {
      var id :| id in ids;
      TotalTake(t, limit, ids, id);
      TotalTake(t', limit, ids, id);
      TotalSame(t, t', limit, ids - {id});
    }
  }

  /** A change at one event moves the potential by the change of its weight. */
  lemma PotentialAt(t: Tables, t': Tables, limit: int, id: EventId)
    requires id in t.outbox && t'.outbox.Keys == t.outbox.Keys
    requires forall k :: k in t.outbox && k != id ==> Weight(t', limit, k) == Weight(t, limit, k)
    ensures Potential(t', limit) + Weight(t, limit, id) == Potential(t, limit) + Weight(t', limit, id)
  {
    TotalTake(t, limit, t.outbox.Keys, id);
    TotalTake(t', limit, t.outbox.Keys, id);
    TotalSame(t, t', limit, t.outbox.Keys - {id});
  }

  /** The potential is used up exactly when every event is published or quarantined. */
  lemma PotentialZero(t: Tables, limit: int)
    requires PendingIndexed(t.outbox, t.pending, t.retry)
    ensures Potential(t, limit) == 0 <==>
            forall id :: id in t.outbox ==> t.outbox[id].state == Published || t.retry[id].quarantined
  {
    if Potential(t, limit) == 0 {
      forall id | id in t.outbox ensures t.outbox[id].state == Published || t.retry[id].quarantined {
        TotalTake(t, limit, t.outbox.Keys, id);
      }
    } else if forall id :: id in t.outbox ==> t.outbox[id].state == Published || t.retry[id].quarantined {
      TotalNone(t, limit, t.outbox.Keys);
    }
  }

  lemma {:induction false} TotalNone(t: Tables, limit: int, ids: set<EventId>)
    requires forall id :: id in ids ==> !Active(t, id)
    ensures Total(t, limit, ids) == 0
    decreases |ids|
  {
    if ids != {} {
      var id :| id in ids;
      assert !Active(t, id);
      TotalTake(t, limit, ids, id);
      TotalNone(t, limit, ids - {id});
    }
  }

  // ---------- one record ----------

  /** Two tables that differ only in what they say about one event. */
  ghost predicate SameBut(t: Tables, t': Tables, id: EventId) {
    && t'.outbox.Keys == t.outbox.Keys
    && (forall k :: k in t.outbox && k != id ==> t'.outbox[k] == t.outbox[k])
    && (forall k :: k != id ==> (k in t.retry <==> k in t'.retry))
    && (forall k :: k != id && k in t.retry ==> t'.retry[k] == t.retry[k])
    && (forall s :: s in t.pending && s.id != id ==> s in t'.pending && t'.pending[s] == t.pending[s])
  }

  lemma SameButTrans(t: Tables, t1: Tables, t2: Tables, id: EventId)
    requires SameBut(t, t1, id) && SameBut(t1, t2, id)
    ensures SameBut(t, t2, id)
  {
  }

  lemma PotentialBut(t: Tables, t': Tables, limit: int, id: EventId)
    requires id in t.outbox && SameBut(t, t', id)
    ensures Potential(t', limit) + Weight(t, limit, id) == Potential(t, limit) + Weight(t', limit, id)
  {
    PotentialAt(t, t', limit, id);
  }

  lemma ClaimedActive(t: Tables, id: EventId, node: string, now: Time, duration: int)
    requires Active(t, id) && LeaseFree(t, id, now)
    ensures var t' := ClaimLease(t, id, node, now, duration);
            Active(t', id) && t'.retry[id].retryCount == t.retry[id].retryCount && SameBut(t, t', id)
  {
  }

  lemma MarkSpends(t: Tables, id: EventId, brokerId: string, now: Time)
    requires id in t.outbox
    ensures var t' := Marked(t, id, brokerId, now).0; SameBut(t, t', id) && !Active(t', id)
  {
  }

  lemma FailSpends(t: Tables, id: EventId, error: string, policy: Backoff.Policy, draw: nat, now: Time)
    requires Active(t, id)
    ensures var t' := Failed(t, id, error, policy, draw, now).0;
            SameBut(t, t', id) && Weight(t', policy.quarantineAfter, id) + 1 <= Weight(t, policy.quarantineAfter, id)
  {
    FailedTables(t, id, error, policy, draw, now);
  }

  lemma FinishSpends(t: Tables, id: EventId, cfg: Settings, turn: Turn)
    requires Active(t, id)
    ensures var t' := Finish(t, id, cfg, turn);
            SameBut(t, t', id) && Weight(t', cfg.policy.quarantineAfter, id) + 1 <= Weight(t, cfg.policy.quarantineAfter, id)
  {
    if turn.verdict.Ack? {
      MarkSpends(t, id, turn.verdict.brokerId, turn.endTime);
    } else {
      FailSpends(t, id, turn.verdict.error, cfg.policy, turn.draw, turn.endTime);
    }
  }

  lemma FinishIndexed(t: Tables, id: EventId, cfg: Settings, turn: Turn)
    requires PendingIndexed(t.outbox, t.pending, t.retry) && id in t.outbox
    ensures var t' := Finish(t, id, cfg, turn); PendingIndexed(t'.outbox, t'.pending, t'.retry)
  {
    if turn.verdict.Ack? {
      MarkIndexed(t, id, turn.verdict.brokerId, turn.endTime);
    } else {
      FailedTables(t, id, turn.verdict.error, cfg.policy, turn.draw, turn.endTime);
      FailIndexed(t, id, Finish(t, id, cfg, turn).retry[id]);
    }
  }

  /** Handling one active record keeps the index, touches no other event, and if the record was
      claimed, spends at least one unit of the potential. */
  lemma HandleSpends(o: Outbox, r: Record, cfg: Settings, turn: Turn)
    requires PendingIndexed(o.t.outbox, o.t.pending, o.t.retry) && Active(o.t, r.id)
    ensures var t' := Handle(o, r, cfg, turn).t;
            && PendingIndexed(t'.outbox, t'.pending, t'.retry) && SameBut(o.t, t', r.id)
            && Potential(t', cfg.policy.quarantineAfter) + (if LeaseFree(o.t, r.id, turn.claimTime) then 1 else 0)
               <= Potential(o.t, cfg.policy.quarantineAfter)
  {
    if LeaseFree(o.t, r.id, turn.claimTime) {
      var t1 := ClaimLease(o.t, r.id, cfg.node, turn.claimTime, cfg.leaseMs);
      ClaimedActive(o.t, r.id, cfg.node, turn.claimTime, cfg.leaseMs);
      ClaimIndexed(o.t, r.id, cfg.node, turn.claimTime, cfg.leaseMs);
      FinishSpends(t1, r.id, cfg, turn);
      FinishIndexed(t1, r.id, cfg, turn);
      var t' := Handle(o, r, cfg, turn).t;
      SameButTrans(o.t, t1, t', r.id);
      PotentialBut(o.t, t', cfg.policy.quarantineAfter, r.id);
    }
  }

  /** A record whose lease is not over is left alone, in the store and on the bus. */
  lemma HandleLeaves(o: Outbox, r: Record, cfg: Settings, turn: Turn)
    requires !LeaseOver(o.t, r.id, turn.claimTime)
    ensures Handle(o, r, cfg, turn) == o
  {
    ClaimWrites(o.t, r.id, cfg.node, turn.claimTime, cfg.leaseMs);
  }

  lemma AckedRows(t: Tables, id: EventId, cfg: Settings, turn: Turn)
    requires turn.verdict.Ack? && id in t.outbox
    ensures MarkedRows(t, Finish(t, id, cfg, turn), id, turn.verdict.brokerId, turn.endTime)
  {
    MarkWrites(t, id, turn.verdict.brokerId, turn.endTime);
  }

  /** What handling a claimed record leaves: on the bus the unacknowledged copies and, if the round was
      acknowledged, one more, all with the content of the record; in the store the lease in the name of the
      node, and then either the published mark with the id and time of the acknowledgement, or the next
      failure with its error, due on schedule. */
  lemma HandleExact(o: Outbox, r: Record, cfg: Settings, turn: Turn, c: Backoff.Settings, t1: Tables)
    requires LeaseOver(o.t, r.id, turn.claimTime) && r.id in o.t.outbox
    requires Backoff.Validated(c) && Backoff.Fits(c) && cfg.policy == Backoff.PolicyOf(c)
    requires t1 == ClaimLease(o.t, r.id, cfg.node, turn.claimTime, cfg.leaseMs)
    ensures LeasedRows(o.t, t1, r.id, cfg.node, turn.claimTime + cfg.leaseMs)
    ensures var o', m := Handle(o, r, cfg, turn), Message(r.id, r.body.subject, r.body.payload);
            && o.log <= o'.log && |o'.log| == |o.log| + turn.copies + (if turn.verdict.Ack? then 1 else 0)
            && (forall i :: |o.log| <= i < |o'.log| ==> o'.log[i] == m)
            && (turn.verdict.Ack? ==> MarkedRows(t1, o'.t, r.id, turn.verdict.brokerId, turn.endTime))
            && (turn.verdict.Nack? ==>
                  && r.id in o'.t.retry && Backoff.OnSchedule(c, o.t.retry[r.id].retryCount + 1, o'.t.retry[r.id].nextAttempt - turn.endTime)
                  && o'.t.retry[r.id].retryCount == o.t.retry[r.id].retryCount + 1 && o'.t.retry[r.id].lastError == turn.verdict.error)
  {
    ClaimWrites(o.t, r.id, cfg.node, turn.claimTime, cfg.leaseMs);
    if turn.verdict.Ack? {
      AckedRows(t1, r.id, cfg, turn);
    } else {
      FailedDue(t1, r.id, turn.verdict.error, c, turn.draw, turn.endTime);
    }
  }

  // ---------- batches and ticks ----------

  /** The records of a batch name different active events. */
  ghost predicate BatchOk(t: Tables, rs: seq<Record>) {
    && (forall i :: 0 <= i < |rs| ==> Active(t, rs[i].id))
    && (forall i, j :: 0 <= i < j < |rs| ==> rs[i].id != rs[j].id)
  }

  lemma BatchTail(t: Tables, t': Tables, rs: seq<Record>)
    requires BatchOk(t, rs) && rs != [] && SameBut(t, t', rs[0].id)
    ensures BatchOk(t', rs[1..])
  {
    forall i | 0 <= i < |rs| - 1 ensures Active(t', rs[1..][i].id) {
      assert Active(t, rs[i + 1].id);
    }
  }

  lemma {:induction false} BatchSpends(o: Outbox, rs: seq<Record>, cfg: Settings, turns: nat -> Turn, at: nat)
    requires PendingIndexed(o.t.outbox, o.t.pending, o.t.retry) && BatchOk(o.t, rs)
    ensures var (o', claimed) := Batch(o, rs, cfg, turns, at);
            && PendingIndexed(o'.t.outbox, o'.t.pending, o'.t.retry)
            && Potential(o'.t, cfg.policy.quarantineAfter) + claimed <= Potential(o.t, cfg.policy.quarantineAfter)
    decreases |rs|
  {
    if rs != [] {
      HandleSpends(o, rs[0], cfg, turns(at));
      var o1 := Handle(o, rs[0], cfg, turns(at));
      BatchTail(o.t, o1.t, rs);
      BatchSpends(o1, rs[1..], cfg, turns, at + 1);
    }
  }

  /** What a scan chooses: pending slots of the page, each once, each eligible when judged. */
  lemma {:induction false} ScanOk(t: Tables, rows: seq<Slot>, looks: nat -> Option<Time>, at: nat, room: nat)
    requires PendingIndexed(t.outbox, t.pending, t.retry)
    requires forall k :: k in rows ==> k in t.pending
    requires forall i, j :: 0 <= i < j < |rows| ==> rows[i] != rows[j]
    ensures BatchOk(t, Scan(t, rows, looks, at, room))
    ensures forall i :: 0 <= i < |Scan(t, rows, looks, at, room)| ==> exists k :: k in rows && k.id == Scan(t, rows, looks, at, room)[i].id
    decreases |rows|
  {
    if rows != [] && room > 0 {
      assert rows[0] in rows;
      var chosen := SeenEligible(t, rows[0].id, looks(at));
      var room' := if chosen then room - 1 else room;
      ScanOk(t, rows[1..], looks, at + 1, room');
      var tail := Scan(t, rows[1..], looks, at + 1, room');
      forall i | 0 <= i < |tail| ensures exists k :: k in rows && k.id == tail[i].id && k.id != rows[0].id {
        var k :| k in rows[1..] && k.id == tail[i].id;
        assert k in rows && k != rows[0];
      }
    }
  }

  lemma TickOk(t: Tables, limit: int, looks: nat -> Option<Time>)
    requires PendingIndexed(t.outbox, t.pending, t.retry)
    ensures BatchOk(t, Chosen(t, limit, looks))
  {
    PageDistinct(t, limit);
    ScanOk(t, Page(t, limit), looks, 0, BatchLimit(limit));
  }

  lemma PageDistinct(t: Tables, limit: int)
    ensures forall i, j :: 0 <= i < j < |Page(t, limit)| ==> Page(t, limit)[i] != Page(t, limit)[j]
  {
    SlotOrder();
    forall i, j | 0 <= i < j < |Page(t, limit)| ensures Page(t, limit)[i] != Page(t, limit)[j] {
      ListingSorted(t.pending.Keys, SlotLess, i, j);
    }
  }

  /** The index is sound and what is left plus what was claimed fits a budget. */
  ghost predicate Within(o: Outbox, limit: int, claimed: nat, budget: nat) {
    PendingIndexed(o.t.outbox, o.t.pending, o.t.retry) && Potential(o.t, limit) + claimed <= budget
  }

  lemma TickSpends(o: Outbox, limit: int, cfg: Settings, env: Env, claimed: nat, budget: nat)
    requires Within(o, cfg.policy.quarantineAfter, claimed, budget)
    ensures var (o', more) := Tick(o, limit, cfg, env); Within(o', cfg.policy.quarantineAfter, claimed + more, budget)
  {
    TickOk(o.t, limit, env.looks);
    BatchSpends(o, Chosen(o.t, limit, env.looks), cfg, env.turns, 0);
  }

  lemma {:induction false} TicksSpend(o: Outbox, limit: int, cfg: Settings, envs: seq<Env>, claimed: nat, budget: nat)
    requires Within(o, cfg.policy.quarantineAfter, claimed, budget)
    ensures var (o', more) := Ticks(o, limit, cfg, envs); Within(o', cfg.policy.quarantineAfter, claimed + more, budget)
    decreases |envs|
  {
    if envs != [] {
      var (o1, more) := Tick(o, limit, cfg, envs[0]);
      TickSpends(o, limit, cfg, envs[0], claimed, budget);
      TicksSpend(o1, limit, cfg, envs[1..], claimed + more, budget);
    }
  }

  /** However the bus behaves and however many ticks run: the publication rounds started never
      exceed the potential, and what they started is gone from it. */
  lemma BoundedRelayWork(o: Outbox, limit: int, cfg: Settings, envs: seq<Env>)
    requires PendingIndexed(o.t.outbox, o.t.pending, o.t.retry)
    ensures var (o', claimed) := Ticks(o, limit, cfg, envs);
            && PendingIndexed(o'.t.outbox, o'.t.pending, o'.t.retry)
            && Potential(o'.t, cfg.policy.quarantineAfter) + claimed <= Potential(o.t, cfg.policy.quarantineAfter)
  {
    TicksSpend(o, limit, cfg, envs, 0, Potential(o.t, cfg.policy.quarantineAfter));
  }

  /** Once as many rounds ran as the potential allowed, every event is published or quarantined. */
  lemma WorkFinishes(o: Outbox, limit: int, cfg: Settings, envs: seq<Env>)
    requires PendingIndexed(o.t.outbox, o.t.pending, o.t.retry)
    requires Ticks(o, limit, cfg, envs).1 == Potential(o.t, cfg.policy.quarantineAfter)
    ensures var t := Ticks(o, limit, cfg, envs).0.t;
            PendingIndexed(t.outbox, t.pending, t.retry) &&
            forall id :: id in t.outbox ==> t.outbox[id].state == Published || t.retry[id].quarantined
  {
    BoundedRelayWork(o, limit, cfg, envs);
    PotentialZero(Ticks(o, limit, cfg, envs).0.t, cfg.policy.quarantineAfter);
  }
}
