/** Draining the outbox: with an accepting bus and every pending event ready, each tick publishes
    exactly the oldest events, in order, until none is left. Clock readings only have to be no
    earlier than a time at which all pending events are ready. */
module Drain {
  import opened Collections
  import opened Schema
  import opened Statements
  import opened Ordering
  import opened Protocol
  import opened Invariant
  import opened Preservation
  import opened Operations
  import opened Relay
  import opened RelayWork
  import opened Cleanup

  /** The event can be scanned and claimed at any time from `start` on. */
  predicate Ready(t: Tables, start: Time, id: EventId) {
    && id in t.retry && !t.retry[id].quarantined && t.retry[id].nextAttempt <= start
    && t.retry[id].leaseUntil.Some? && t.retry[id].leaseUntil.value < start
  }

  ghost predicate AllReady(t: Tables, start: Time) {
    && PendingIndexed(t.outbox, t.pending, t.retry)
    && (forall k :: k in t.pending ==> Ready(t, start, k.id))
  }

  /** Every round is acknowledged, and no clock reading lies before `start`. */
  ghost predicate Accepting(env: Env, start: Time) {
    && (forall i: nat :: env.looks(i).Some? && env.looks(i).value >= start)
    && (forall i: nat :: env.turns(i).claimTime >= start && env.turns(i).verdict.Ack? && env.turns(i).copies == 0)
  }

  function MessageAt(pending: map<Slot, Body>, k: Slot): Message {
    MessageOf(k.id, if k in pending then pending[k] else Body("", "", "", ""))
  }

  /** The messages of some pending rows, in order. */
  function Messages(pending: map<Slot, Body>, rows: seq<Slot>): seq<Message> {
    if rows == [] then [] else [MessageAt(pending, rows[0])] + Messages(pending, rows[1..])
  }

  lemma {:induction false} MessagesAgree(a: map<Slot, Body>, b: map<Slot, Body>, rows: seq<Slot>)
    requires forall k :: k in rows ==> k in a && k in b && a[k] == b[k]
    ensures Messages(a, rows) == Messages(b, rows)
  {
    if rows != [] {
      assert rows[0] in rows;
      MessagesAgree(a, b, rows[1..]);
    }
  }

  lemma {:induction false} MessagesConcat(pending: map<Slot, Body>, a: seq<Slot>, b: seq<Slot>)
    ensures Messages(pending, a + b) == Messages(pending, a) + Messages(pending, b)
  {
    if a == [] {
      assert a + b == b;
    } else {
      assert (a + b)[1..] == a[1..] + b;
      MessagesConcat(pending, a[1..], b);
    }
  }

  lemma {:induction false} AllEligible(t: Tables, rows: seq<Slot>, env: Env, start: Time, at: nat)
    requires AllReady(t, start) && Accepting(env, start) && forall k :: k in rows ==> k in t.pending
    ensures EligibleRows(t, rows, env.looks, at) == rows
    decreases |rows|
  {
    if rows != [] {
      assert rows[0] in rows && env.looks(at).value >= start;
      assert Ready(t, start, rows[0].id);
      AllEligible(t, rows[1..], env, start, at + 1);
    }
  }

  lemma SlotOfId(t: Tables, a: Slot, b: Slot)
    requires PendingIndexed(t.outbox, t.pending, t.retry) && a in t.pending && b in t.pending
    ensures a.id == b.id ==> a == b
  {
  }

  /** Publishing one ready event removes its slot and leaves the others ready. */
  lemma PublishOne(o: Outbox, r: Record, k: Slot, cfg: Settings, turn: Turn, start: Time)
    requires AllReady(o.t, start) && k in o.t.pending && r.id == k.id && r.body == o.t.pending[k]
    requires turn.claimTime >= start && turn.verdict.Ack? && turn.copies == 0
    ensures var o' := Handle(o, r, cfg, turn);
            && AllReady(o'.t, start) && o'.t.pending == o.t.pending - {k}
            && o'.log == o.log + [MessageAt(o.t.pending, k)]
  {
    var t1 := ClaimLease(o.t, k.id, cfg.node, turn.claimTime, cfg.leaseMs);
    assert Ready(o.t, start, k.id);
    ClaimIndexed(o.t, k.id, cfg.node, turn.claimTime, cfg.leaseMs);
    var t2 := Marked(t1, k.id, turn.verdict.brokerId, turn.endTime).0;
    MarkIndexed(t1, k.id, turn.verdict.brokerId, turn.endTime);
    assert t2.pending == o.t.pending - {k};
    forall j | j in t2.pending ensures Ready(t2, start, j.id) {
      assert Ready(o.t, start, j.id);
      SlotOfId(o.t, j, k);
    }
  }

  /** The records carry the slots and bodies of the rows. */
  ghost predicate Carries(pending: map<Slot, Body>, rs: seq<Record>, rows: seq<Slot>) {
    && |rs| == |rows|
    && (forall i :: 0 <= i < |rows| ==> rows[i] in pending && rs[i].id == rows[i].id && rs[i].body == pending[rows[i]])
    && DistinctRows(rows)
  }

  lemma CarriesTail(pending: map<Slot, Body>, rs: seq<Record>, rows: seq<Slot>)
    requires Carries(pending, rs, rows) && rows != []
    ensures Carries(pending - {rows[0]}, rs[1..], rows[1..])
  {
    forall i | 0 <= i < |rows| - 1 ensures rows[1..][i] in pending - {rows[0]} {
      assert rows[1..][i] == rows[i + 1] && rows[1..][i] in rows[1..];
    }
  }

  lemma CarriedPending(pending: map<Slot, Body>, rs: seq<Record>, rows: seq<Slot>)
    requires Carries(pending, rs, rows)
    ensures forall k :: k in rows ==> k in pending
  {
  }

  lemma RemoveCons(pending: map<Slot, Body>, rows: seq<Slot>)
    requires rows != []
    ensures pending - {rows[0]} - Elems(rows[1..]) == pending - Elems(rows)
  {
    assert rows == [rows[0]] + rows[1..];
    ElemsOfCons(rows[0], rows[1..]);
  }

  /** From o to o' the given rows were published, in order. */
  ghost predicate Sent(o: Outbox, o': Outbox, rows: seq<Slot>) {
    o'.t.pending == o.t.pending - Elems(rows) && o'.log == o.log + Messages(o.t.pending, rows)
  }

  lemma SentCons(o: Outbox, o1: Outbox, o2: Outbox, rows: seq<Slot>)
    requires rows != [] && DistinctRows(rows) && (forall k :: k in rows ==> k in o.t.pending)
    requires o1.t.pending == o.t.pending - {rows[0]} && o1.log == o.log + [MessageAt(o.t.pending, rows[0])]
    requires Sent(o1, o2, rows[1..])
    ensures Sent(o, o2, rows)
  {
    RemoveCons(o.t.pending, rows);
    forall k | k in rows[1..] ensures k in o.t.pending && k in o1.t.pending && o1.t.pending[k] == o.t.pending[k] {
      assert k in rows;
    }
    MessagesAgree(o1.t.pending, o.t.pending, rows[1..]);
    assert o2.log == o.log + ([MessageAt(o.t.pending, rows[0])] + Messages(o.t.pending, rows[1..]));
  }

  /** A batch of ready events is published in order. */
  lemma {:induction false} PublishBatch(o: Outbox, rs: seq<Record>, rows: seq<Slot>, cfg: Settings, env: Env, start: Time, at: nat)
    requires AllReady(o.t, start) && Accepting(env, start) && Carries(o.t.pending, rs, rows)
    ensures var o' := Batch(o, rs, cfg, env.turns, at).0; AllReady(o'.t, start) && Sent(o, o', rows)
    decreases |rows|
  {
    if rows == [] {
      assert o.t.pending - Elems(rows) == o.t.pending;
    } else {
      var o1 := Handle(o, rs[0], cfg, env.turns(at));
      assert env.turns(at).verdict.Ack?;
      PublishOne(o, rs[0], rows[0], cfg, env.turns(at), start);
      CarriesTail(o.t.pending, rs, rows);
      PublishBatch(o1, rs[1..], rows[1..], cfg, env, start, at + 1);
      CarriedPending(o.t.pending, rs, rows);
      SentCons(o, o1, Batch(o1, rs[1..], cfg, env.turns, at + 1).0, rows);
    }
  }

  lemma PendingDrop(t: Tables, t': Tables, n: nat)
    requires n <= |PendingRows(t)| && t'.pending == t.pending - Elems(PendingRows(t)[..n])
    ensures PendingRows(t') == PendingRows(t)[n..]
  {
    SlotOrder();
    ListingDrop(t.pending.Keys, SlotLess, n);
    assert t'.pending.Keys == t.pending.Keys - Elems(PendingRows(t)[..n]);
  }

  lemma OldestDistinct(t: Tables, n: nat)
    ensures DistinctRows(First(PendingRows(t), n))
  {
    SlotOrder();
    var rows := First(PendingRows(t), n);
    forall i, j | 0 <= i < j < |rows| ensures rows[i] != rows[j] {
      ListingSorted(t.pending.Keys, SlotLess, i, j);
    }
    DistinctFrom(rows);
  }

  lemma OldestOfPage(t: Tables, limit: int)
    ensures First(Page(t, limit), BatchLimit(limit)) == First(PendingRows(t), BatchLimit(limit))
  {
  }

  lemma RecordsCarry(t: Tables, rows: seq<Slot>)
    requires (forall k :: k in rows ==> k in t.pending) && DistinctRows(rows)
    ensures Carries(t.pending, Records(t, rows), rows)
  {
  }

  /** What a tick chooses when all are ready: the oldest min(k, L) events. */
  lemma ChosenOldest(t: Tables, limit: int, env: Env, start: Time)
    requires AllReady(t, start) && Accepting(env, start)
    ensures Carries(t.pending, Chosen(t, limit, env.looks), First(PendingRows(t), BatchLimit(limit)))
  {
    AllEligible(t, Page(t, limit), env, start, 0);
    ScanIsFirstEligible(t, Page(t, limit), env.looks, 0, BatchLimit(limit));
    OldestOfPage(t, limit);
    OldestDistinct(t, BatchLimit(limit));
    RecordsCarry(t, First(PendingRows(t), BatchLimit(limit)));
  }

  /** From o to o' exactly the oldest n pending events were published, in (occurred_at, event_id) order. */
  ghost predicate Drained(o: Outbox, o': Outbox, n: nat) {
    var rows := PendingRows(o.t);
    n <= |rows| && PendingRows(o'.t) == rows[n..] && Sent(o, o', rows[..n])
  }

  /** One tick publishes exactly the oldest min(k, L) pending events, in order, and no other. */
  lemma TickDrains(o: Outbox, limit: int, cfg: Settings, env: Env, start: Time)
    requires AllReady(o.t, start) && Accepting(env, start)
    ensures var o' := Tick(o, limit, cfg, env).0;
            AllReady(o'.t, start) && Drained(o, o', Min(BatchLimit(limit), |PendingRows(o.t)|))
  {
    var rows := PendingRows(o.t);
    var n := Min(BatchLimit(limit), |rows|);
    ChosenOldest(o.t, limit, env, start);
    PublishBatch(o, Chosen(o.t, limit, env.looks), rows[..n], cfg, env, start, 0);
    PendingDrop(o.t, Tick(o, limit, cfg, env).0.t, n);
  }

  lemma SplitRows(rows: seq<Slot>, n1: nat, n2: nat, n: nat)
    requires n == n1 + n2 <= |rows|
    ensures rows[..n] == rows[..n1] + rows[n1..][..n2] && rows[n1..][n2..] == rows[n..]
  {
  }

  lemma ElemsConcat(a: seq<Slot>, b: seq<Slot>)
    ensures Elems(a + b) == Elems(a) + Elems(b)
  {
    assert forall k :: k in a + b <==> k in a || k in b;
  }

  lemma RemoveTwice(pending: map<Slot, Body>, a: seq<Slot>, b: seq<Slot>)
    ensures pending - Elems(a) - Elems(b) == pending - Elems(a + b)
  {
    ElemsConcat(a, b);
  }

  lemma SentTrans(o: Outbox, o1: Outbox, o2: Outbox, a: seq<Slot>, b: seq<Slot>)
    requires Sent(o, o1, a) && Sent(o1, o2, b) && forall k :: k in b ==> k in o1.t.pending
    ensures Sent(o, o2, a + b)
  {
    RemoveTwice(o.t.pending, a, b);
    MessagesAgree(o1.t.pending, o.t.pending, b);
    MessagesConcat(o.t.pending, a, b);
    Regroup(o.log, Messages(o.t.pending, a), Messages(o.t.pending, b));
  }

  lemma DrainedTrans(o: Outbox, o1: Outbox, o2: Outbox, n1: nat, n2: nat, n: nat)
    requires Drained(o, o1, n1) && Drained(o1, o2, n2) && n == n1 + n2
    ensures Drained(o, o2, n)
  {
    var rows, rest := PendingRows(o.t), PendingRows(o1.t);
    SplitRows(rows, n1, n2, n);
    forall k | k in rest[..n2] ensures k in o1.t.pending {
      assert k in rest;
    }
    SentTrans(o, o1, o2, rows[..n1], rest[..n2]);
  }

  lemma DrainedNone(o: Outbox, room: nat)
    requires room == 0
    ensures DrainedBy(o, o, room)
  {
    var rows := PendingRows(o.t);
    assert rows[..0] == [] && rows[0..] == rows;
    assert o.t.pending - Elems(rows[..0]) == o.t.pending;
  }

  ghost predicate AllAccepting(envs: seq<Env>, start: Time) {
    forall i :: 0 <= i < |envs| ==> Accepting(envs[i], start)
  }

  lemma TicksUnfold(o: Outbox, limit: int, cfg: Settings, envs: seq<Env>)
    requires envs != []
    ensures Ticks(o, limit, cfg, envs).0 == Ticks(Tick(o, limit, cfg, envs[0]).0, limit, cfg, envs[1..]).0
  {
  }

  /** The room of m ticks: m times the batch limit. */
  function Room(limit: int, m: nat): nat {
    if m == 0 then 0 else BatchLimit(limit) + Room(limit, m - 1)
  }

  lemma {:induction false} RoomIs(limit: int, m: nat)
    ensures Room(limit, m) == m * BatchLimit(limit)
  {
    if m > 0 {
      RoomIs(limit, m - 1);
      assert m * BatchLimit(limit) == (m - 1) * BatchLimit(limit) + BatchLimit(limit);
    }
  }

  ghost predicate DrainedBy(o: Outbox, o': Outbox, room: nat) {
    Drained(o, o', Min(room, |PendingRows(o.t)|))
  }

  lemma DrainedCount(o: Outbox, o1: Outbox, n: nat)
    requires n <= |PendingRows(o.t)| && Drained(o, o1, n)
    ensures |PendingRows(o1.t)| == |PendingRows(o.t)| - n
  {
  }

  lemma DrainedMore(o: Outbox, o1: Outbox, o2: Outbox, room1: nat, room2: nat, room: nat)
    requires DrainedBy(o, o1, room1) && DrainedBy(o1, o2, room2) && room == room1 + room2
    ensures DrainedBy(o, o2, room)
  {
    var n1, n2 := Min(room1, |PendingRows(o.t)|), Min(room2, |PendingRows(o1.t)|);
    DrainedCount(o, o1, n1);
    DrainedTrans(o, o1, o2, n1, n2, Min(room, |PendingRows(o.t)|));
  }

  /** m ticks publish exactly the oldest min(k, m * L) events. */
  lemma {:induction false} TicksDrain(o: Outbox, limit: int, cfg: Settings, envs: seq<Env>, start: Time)
    requires AllReady(o.t, start) && AllAccepting(envs, start)
    ensures DrainedBy(o, Ticks(o, limit, cfg, envs).0, Room(limit, |envs|))
    decreases |envs|
  {
    if envs == [] {
      DrainedNone(o, Room(limit, |envs|));
    } else {
      var o1 := Tick(o, limit, cfg, envs[0]).0;
      TickDrains(o, limit, cfg, envs[0], start);
      AcceptingTail(envs, start);
      TicksDrain(o1, limit, cfg, envs[1..], start);
      TicksUnfold(o, limit, cfg, envs);
      DrainedMore(o, o1, Ticks(o, limit, cfg, envs).0, BatchLimit(limit), Room(limit, |envs[1..]|), Room(limit, |envs|));
    }
  }

  lemma AcceptingTail(envs: seq<Env>, start: Time)
    requires AllAccepting(envs, start) && envs != []
    ensures AllAccepting(envs[1..], start)
  {
    forall i | 0 <= i < |envs| - 1 ensures Accepting(envs[1..][i], start) {
      assert envs[1..][i] == envs[i + 1];
    }
  }

  /** As many ticks as k over L, rounded up, empty the outbox, publishing all k events in order. */
  lemma OutboxDrains(o: Outbox, limit: int, cfg: Settings, envs: seq<Env>, start: Time)
    requires AllReady(o.t, start) && AllAccepting(envs, start)
    requires |envs| * BatchLimit(limit) >= |PendingRows(o.t)|
    ensures var o' := Ticks(o, limit, cfg, envs).0;
            o'.t.pending == map[] && o'.log == o.log + Messages(o.t.pending, PendingRows(o.t))
  {
    TicksDrain(o, limit, cfg, envs, start);
    RoomIs(limit, |envs|);
    var rows := PendingRows(o.t);
    var o' := Ticks(o, limit, cfg, envs).0;
    assert rows[..|rows|] == rows && rows[|rows|..] == [];
    assert forall k :: k in o'.t.pending ==> k in PendingRows(o'.t);
  }
}
