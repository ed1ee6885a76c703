/** The outbox relay on its own: one relay worker, a working store, an arbitrary bus. */
module Relay {
  import opened Schema
  import opened Statements
  import opened Protocol
  import opened Operations
  import opened CassStore
  import Backoff

  /** How a publication round ends. */
  datatype Verdict = Ack(brokerId: string) | Nack(error: string)

  /** What the environment decides about one record of a batch: clock readings, the random draw,
      how many unacknowledged copies the broker kept, and how the round ends. */
  datatype Turn = Turn(claimTime: Time, copies: nat, verdict: Verdict, endTime: Time, draw: nat)

  /** What the environment decides about one tick. */
  datatype Env = Env(looks: nat -> Option<Time>, turns: nat -> Turn)

  datatype Outbox = Outbox(t: Tables, log: seq<Message>)

  datatype Settings = Settings(node: string, leaseMs: int, policy: Backoff.Policy)

  function Repeat(m: Message, n: nat): seq<Message> {
    seq(n, _ => m)
  }

  function Finish(t: Tables, id: EventId, cfg: Settings, turn: Turn): Tables {
    if turn.verdict.Ack? then Marked(t, id, turn.verdict.brokerId, turn.endTime).0
    else Failed(t, id, turn.verdict.error, cfg.policy, turn.draw, turn.endTime).0
  }

  /** Claim, publish, then mark or record the failure of one record. */
  function Handle(o: Outbox, r: Record, cfg: Settings, turn: Turn): Outbox {
    if !LeaseFree(o.t, r.id, turn.claimTime) then o else
    var m := MessageOf(r.id, r.body);
    Outbox(Finish(ClaimLease(o.t, r.id, cfg.node, turn.claimTime, cfg.leaseMs), r.id, cfg, turn),
           o.log + Repeat(m, turn.copies) + if turn.verdict.Ack? then [m] else [])
  }

  /** A batch, and how many of its records were claimed. */
  function Batch(o: Outbox, rs: seq<Record>, cfg: Settings, turns: nat -> Turn, at: nat): (Outbox, nat)
    decreases |rs|
  {
    if rs == [] then (o, 0) else
    var (o', n) := Batch(Handle(o, rs[0], cfg, turns(at)), rs[1..], cfg, turns, at + 1);
    (o', n + if LeaseFree(o.t, rs[0].id, turns(at).claimTime) then 1 else 0)
  }

  function Chosen(t: Tables, limit: int, looks: nat -> Option<Time>): seq<Record> {
    Scan(t, Page(t, limit), looks, 0, BatchLimit(limit))
  }

  /** The records a tick works on are the first eligible rows of the page. */
  lemma ChosenRecords(t: Tables, limit: int, looks: nat -> Option<Time>)
    ensures var chosen := First(EligibleRows(t, Page(t, limit), looks, 0), BatchLimit(limit));
            (forall k :: k in chosen ==> k in t.pending) && Chosen(t, limit, looks) == Records(t, chosen)
  {
    ScanIsFirstEligible(t, Page(t, limit), looks, 0, BatchLimit(limit));
  }

  function Tick(o: Outbox, limit: int, cfg: Settings, env: Env): (Outbox, nat) {
    Batch(o, Chosen(o.t, limit, env.looks), cfg, env.turns, 0)
  }

  lemma BatchNext(o: Outbox, rs: seq<Record>, cfg: Settings, turns: nat -> Turn, i: nat)
    requires i < |rs|
    ensures var (o', n) := Batch(Handle(o, rs[i], cfg, turns(i)), rs[i + 1..], cfg, turns, i + 1);
            Batch(o, rs[i..], cfg, turns, i) == (o', n + if LeaseFree(o.t, rs[i].id, turns(i).claimTime) then 1 else 0)
  {
    assert rs[i..][1..] == rs[i + 1..];
  }

  /** Ticks one after the other, and how many records they claimed in all. */
  function Ticks(o: Outbox, limit: int, cfg: Settings, envs: seq<Env>): (Outbox, nat)
    decreases |envs|
  {
    if envs == [] then (o, 0) else
    var (o1, claimed) := Tick(o, limit, cfg, envs[0]);
    var (o2, more) := Ticks(o1, limit, cfg, envs[1..]);
    (o2, claimed + more)
  }

  /** The relay worker as it runs: over a store object and a bus that keeps what it accepts. */
  class Worker {
    const store: Module
    var log: seq<Message>

    constructor (store: Module)
      ensures this.store == store && log == []
    {
      this.store := store;
      log := [];
    }

    ghost function View(): Outbox
      reads this, store
    {
      Outbox(store.View(), log)
    }

    method RelayOutboxBatch(batchSize: int, cfg: Settings, env: Env) returns (r: Result<nat>)
      modifies this, store
      ensures store.session == old(store.session)
      ensures !store.session ==> View() == old(View()) && r == Err(NoSession)
      ensures store.session ==> r.Ok? && (View(), r.value) == Tick(old(View()), Backoff.Max(1, batchSize), cfg, env)
    {
      var limit := Backoff.Max(1, batchSize);
      ChosenRecords(store.View(), limit, env.looks);
      var pending := store.PendingOutboxEvents(limit, Fine, env.looks);
      if pending.Err? { return Err(NoSession); }
      var claimed := RelayRecords(pending.value, cfg, env.turns);
      r := Ok(claimed);
    }

    /** The loop over a tick's records. */
    method RelayRecords(rs: seq<Record>, cfg: Settings, turns: nat -> Turn) returns (claimed: nat)
      requires store.session
      modifies this, store
      ensures store.session
      ensures (View(), claimed) == Batch(old(View()), rs, cfg, turns, 0)
    {
      claimed := 0;
      ghost var goal := Batch(View(), rs, cfg, turns, 0);
      assert rs[0..] == rs;
      var i := 0;
      while i < |rs|
        invariant 0 <= i <= |rs| && store.session
        invariant var rest := Batch(View(), rs[i..], cfg, turns, i); goal == (rest.0, rest.1 + claimed)
      {
        BatchNext(View(), rs, cfg, turns, i);
        var ok := RelayOne(rs[i], cfg, turns(i));
        if ok { claimed := claimed + 1; }
        i := i + 1;
      }
    }

    method RelayOne(evt: Record, cfg: Settings, turn: Turn) returns (claimed: bool)
      requires store.session
      modifies this, store
      ensures store.session
      ensures claimed == LeaseFree(old(store.View()), evt.id, turn.claimTime)
      ensures View() == Handle(old(View()), evt, cfg, turn)
    {
      var lease := store.ClaimOutboxLease(Some(evt.id), cfg.node, turn.claimTime, cfg.leaseMs, Fine);
      claimed := lease == Ok(true);
      if !claimed { return; }
      var m := Message(evt.id, evt.body.subject, evt.body.payload);
      log := log + Repeat(m, turn.copies);
      if turn.verdict.Nack? {
        WorkingFailure(store.View(), evt.id, turn.verdict.error, cfg.policy, turn.draw, turn.endTime);
        var _ := store.RecordOutboxFailure(Some(evt.id), turn.verdict.error, cfg.policy, turn.draw, turn.endTime, WORKING);
      } else {
        log := log + [m];
        WorkingMark(store.View(), evt.id, turn.verdict.brokerId, turn.endTime);
        var _ := store.MarkOutboxPublished(Some(evt.id), turn.verdict.brokerId, turn.endTime, WORKING);
      }
    }
  }
}
