/** What the protocol promises over whole runs: any interleaving of publishers,
    relays, replays, cleanups and consumers on any nodes, with halts, refused
    statements and lost replies anywhere. No lemma here constrains the clock. */
module Guarantees {
  import opened Schema
  import opened Statements
  import opened Protocol
  import opened Invariant
  import opened Preservation
  import opened Moves
  import opened Collections

  // ---------- no loss ----------

  ghost predicate AwaitsPublication(t: Tables, id: EventId, event: EventRow) {
    && id in t.outbox && t.outbox[id].state == Pending
    && Slot(event.occurredAt, id) in t.pending && t.pending[Slot(event.occurredAt, id)] == event.body
    && (forall k :: k in t.pending && k.id == id ==> k.at == event.occurredAt)
    && id in t.retry && t.retry[id].leaseUntil.Some?
  }

  ghost predicate WasPublished(t: Tables, log: seq<Message>, id: EventId) {
    && id in t.outbox && t.outbox[id].state == Published
    && (forall k :: k in t.pending ==> k.id != id)
    && Accepted(log, id)
  }

  /** Once an append has returned, then in every later world of every run its event is
      either pending (one index row, at its own time, and a leasable retry row) or
      published (no index row, and the broker accepted it). */
  lemma NoLoss(cfg: Config, before: seq<Event>, later: seq<Event>, i: nat)
    requires Sound(cfg) && Legal(Initial(cfg), before)
    requires Legal(After(Initial(cfg), before), later)
    requires i < |After(Initial(cfg), before).s.h.results|
    ensures var r := After(Initial(cfg), before).s.h.results[i];
            var s := After(After(Initial(cfg), before), later).s;
            AwaitsPublication(s.t, r.id, r.event) != WasPublished(s.t, s.h.log, r.id)
  {
    var w := After(Initial(cfg), before);
    Reachable(cfg, before);
    var r := w.s.h.results[i];
    assert ReturnOk(w.s.h.orig, w.s.h.owners, r);
    RunGrows(w, later);
    RunKeeps(w, later);
    StoredTracked(After(w, later).s, r.id);
  }

  /** In a good state every stored event is pending or published, and never both. */
  lemma StoredTracked(s: Shared, id: EventId)
    requires SharedInv(s) && id in s.h.orig
    ensures AwaitsPublication(s.t, id, s.h.orig[id]) != WasPublished(s.t, s.h.log, id)
  {
    assert id in s.t.outbox;
    assert forall k :: k in s.t.pending && k.id == id ==> s.t.outbox[id].state == Pending && k.at == s.t.outbox[id].occurredAt;
  }

  // ---------- content agreement ----------

  /** Everything ever accepted by the broker, stored or dead-lettered for an event carries
      what its append returned, whichever request, relay or replay put it there. */
  lemma ContentAgreement(cfg: Config, before: seq<Event>, later: seq<Event>, i: nat)
    requires Sound(cfg) && Legal(Initial(cfg), before)
    requires Legal(After(Initial(cfg), before), later)
    requires i < |After(Initial(cfg), before).s.h.results|
    ensures var r := After(Initial(cfg), before).s.h.results[i];
            var s := After(After(Initial(cfg), before), later).s;
            && (forall m :: m in s.h.log && m.id == r.id ==> m.subject == r.event.body.subject && m.payload == r.event.body.payload)
            && (forall e :: e in s.h.emitted && e.delivery.message == EventMsg(r.id) ==>
                  e.delivery.subject == r.event.body.subject && e.delivery.payload == r.event.body.payload)
            && r.id in s.t.byId && s.t.byId[r.id] == r.event
            && (forall k :: k in s.t.byStream && k.id == r.id ==> s.t.byStream[k] == r.event.body)
            && r.id in s.t.outbox && s.t.outbox[r.id].body == r.event.body && s.t.outbox[r.id].occurredAt == r.event.occurredAt
            && (forall k :: k in s.t.pending && k.id == r.id ==> s.t.pending[k] == r.event.body)
            && (forall k :: k in s.t.deadByTime && k.id == r.id ==> s.t.deadByTime[k].body == r.event.body)
            && (r.id in s.t.deadById ==> s.t.deadById[r.id].row.body == r.event.body)
  {
    var w := After(Initial(cfg), before);
    Reachable(cfg, before);
    var r := w.s.h.results[i];
    assert ReturnOk(w.s.h.orig, w.s.h.owners, r);
    RunGrows(w, later);
    RunKeeps(w, later);
    MessagesAgree(After(w, later).s, r.id);
    TablesAgree(After(w, later).s, r.id);
  }

  lemma MessagesAgree(s: Shared, id: EventId)
    requires SharedInv(s) && id in s.h.orig
    ensures forall m :: m in s.h.log && m.id == id ==> m == MessageOf(id, s.h.orig[id].body)
    ensures forall e :: e in s.h.emitted && e.delivery.message == EventMsg(id) ==>
              e.delivery.subject == s.h.orig[id].body.subject && e.delivery.payload == s.h.orig[id].body.payload
  {
    forall m | m in s.h.log && m.id == id ensures m == MessageOf(id, s.h.orig[id].body) {
      assert MessageOk(s.h.orig, m);
    }
    forall e | e in s.h.emitted && e.delivery.message == EventMsg(id)
      ensures e.delivery.subject == s.h.orig[id].body.subject && e.delivery.payload == s.h.orig[id].body.payload
    {
      assert EmissionOk(s.h.orig, s.h.claims, e);
      assert MessageOk(s.h.orig, Message(id, e.delivery.subject, e.delivery.payload));
    }
  }

  lemma TablesAgree(s: Shared, id: EventId)
    requires SharedInv(s) && id in s.h.orig
    ensures var t, row := s.t, s.h.orig[id];
            && id in t.byId && t.byId[id] == row
            && (forall k :: k in t.byStream && k.id == id ==> t.byStream[k] == row.body)
            && id in t.outbox && t.outbox[id].body == row.body && t.outbox[id].occurredAt == row.occurredAt
            && (forall k :: k in t.pending && k.id == id ==> t.pending[k] == row.body)
            && (forall k :: k in t.deadByTime && k.id == id ==> t.deadByTime[k].body == row.body)
            && (id in t.deadById ==> t.deadById[id].row.body == row.body)
  {
    if id in s.t.deadById {
      assert Slot(s.t.deadById[id].at, id) in s.t.deadByTime;
    }
  }

  // ---------- fencing after publication ----------

  /** The event executes a statement of process p. */
  predicate Executes(w: World, e: Event) {
    e.Move? && e.p in w.procs && !e.c.fault.Refused?
  }

  /** A failure of the event is recorded, or its dead letter is replayed. */
  predicate Reopens(w: World, e: Event, id: EventId) {
    && Executes(w, e)
    && ((w.procs[e.p].FailWrite? && w.procs[e.p].id == id) || (w.procs[e.p].ReplayBatch? && w.procs[e.p].id == id))
  }

  predicate Marks(w: World, e: Event, id: EventId) {
    Executes(w, e) && w.procs[e.p].MarkBatch? && w.procs[e.p].id == id
  }

  predicate NeverReopens(w: World, run: seq<Event>, id: EventId)
    requires Legal(w, run)
    decreases |run|
  {
    run == [] || (!Reopens(w, run[0], id) && NeverReopens(Next(w, run[0]), run[1..], id))
  }

  predicate Fenced(t: Tables, id: EventId) {
    id in t.outbox && t.outbox[id].state == Published && id !in t.retry
  }

  lemma MarkFences(w: World, e: Event, id: EventId)
    requires Enabled(w, e) && Marks(w, e, id)
    ensures Fenced(Next(w, e).s.t, id)
  {
    StepTables(w.s, e.p, w.procs[e.p], e.c);
  }

  /** Only the process that drew an id writes its event, and only once. */
  lemma NotRewritten(s: Shared, p: Pid, pc: Pc, id: EventId)
    requires SharedInv(s) && PcInv(s, p, pc) && id in s.t.outbox
    ensures pc.AppendBatch? ==> pc.newId != id
  {
  }

  lemma EffectFence(s: Shared, pc: Pc, c: Choice, id: EventId)
    requires Fenced(s.t, id) && (pc.AppendBatch? ==> pc.newId != id)
    ensures Fenced(Effect(s, pc, c), id) <==> !((pc.FailWrite? || pc.ReplayBatch?) && pc.id == id)
  {
  }

  /** A published event stays fenced through one event exactly unless that event reopens it. */
  lemma FenceExact(w: World, e: Event, id: EventId)
    requires Inv(w) && Enabled(w, e) && Fenced(w.s.t, id)
    ensures Fenced(Next(w, e).s.t, id) <==> !Reopens(w, e, id)
  {
    if e.Move? {
      assert PcInv(w.s, e.p, w.procs[e.p]);
      StepTables(w.s, e.p, w.procs[e.p], e.c);
      NotRewritten(w.s, e.p, w.procs[e.p], id);
      EffectFence(w.s, w.procs[e.p], e.c, id);
    }
  }

  lemma {:induction false} FenceHolds(w: World, run: seq<Event>, id: EventId)
    requires Inv(w) && Legal(w, run) && Fenced(w.s.t, id) && NeverReopens(w, run, id)
    ensures Fenced(After(w, run).s.t, id)
    decreases |run|
  {
    if run != [] {
      FenceExact(w, run[0], id);
      NextKeeps(w, run[0]);
      FenceHolds(Next(w, run[0]), run[1..], id);
    }
  }

  /** From the published mark on, and until a failure or replay of the event: no lease claim
      succeeds at any time, a relay with a stale batch passes the event by, and a duplicate
      append reports Published and stops before publishing. */
  lemma FencingAfterPublication(w: World, mark: Event, run: seq<Event>, id: EventId, p: Pid, c: Choice)
    requires Inv(w) && Enabled(w, mark) && Marks(w, mark, id)
    requires Legal(Next(w, mark), run) && NeverReopens(Next(w, mark), run, id)
    ensures var w' := After(Next(w, mark), run);
            && (forall now :: !LeaseFree(w'.s.t, id, now))
            && (p in w'.procs && w'.procs[p].RelayClaim? && w'.procs[p].queue != [] && w'.procs[p].queue[0].id == id ==>
                  Step(w'.s, p, w'.procs[p], c) == w'.s && StepPc(w'.s, p, w'.procs[p], c) == Resume(w'.procs[p].queue[1..]))
            && (p in w'.procs && w'.procs[p].AppendState? && w'.procs[p].existing == id && c.fault.Fine? ==>
                  var s' := Step(w'.s, p, w'.procs[p], c);
                  StepPc(w'.s, p, w'.procs[p], c) == Done && |s'.h.results| == |w'.s.h.results| + 1 && s'.h.results[|w'.s.h.results|].published)
  {
    MarkFences(w, mark, id);
    NextKeeps(w, mark);
    FenceHolds(Next(w, mark), run, id);
    var w' := After(Next(w, mark), run);
    if p in w'.procs {
      FencedMoves(w'.s, p, w'.procs[p], c, id);
    }
  }

  lemma FencedMoves(s: Shared, p: Pid, pc: Pc, c: Choice, id: EventId)
    requires Fenced(s.t, id)
    ensures pc.RelayClaim? && pc.queue != [] && pc.queue[0].id == id ==>
              Step(s, p, pc, c) == s && StepPc(s, p, pc, c) == Resume(pc.queue[1..])
    ensures pc.AppendState? && pc.existing == id && c.fault.Fine? ==>
              var s' := Step(s, p, pc, c);
              StepPc(s, p, pc, c) == Done && |s'.h.results| == |s.h.results| + 1 && s'.h.results[|s.h.results|].published
  {
    if pc.RelayClaim? && pc.queue != [] && pc.queue[0].id == id {
      assert Perform(s, p, pc, c) == s;
    }
  }

  /** Recording a failure after the mark does lift the fence: every later clock can claim. */
  lemma FailureLiftsFence(w: World, e: Event, id: EventId, now: Time)
    requires Enabled(w, e) && Fenced(w.s.t, id) && Reopens(w, e, id) && now > EPOCH
    ensures LeaseFree(Next(w, e).s.t, id, now)
  {
    StepTables(w.s, e.p, w.procs[e.p], e.c);
  }

  // ---------- lease separation ----------

  /** Process p successfully claims the lease of an event. */
  predicate Claims(w: World, e: Event, id: EventId) {
    && Executes(w, e) && w.procs[e.p].RelayClaim? && w.procs[e.p].queue != []
    && w.procs[e.p].queue[0].id == id && LeaseFree(w.s.t, id, e.c.now)
  }

  predicate NeverReleases(w: World, run: seq<Event>, id: EventId)
    requires Legal(w, run)
    decreases |run|
  {
    run == [] || (!Reopens(w, run[0], id) && !Marks(w, run[0], id) && NeverReleases(Next(w, run[0]), run[1..], id))
  }

  predicate LeasedUntil(t: Tables, id: EventId, until: Time) {
    id in t.retry && t.retry[id].leaseUntil.Some? && t.retry[id].leaseUntil.value >= until
  }

  lemma EffectLease(s: Shared, pc: Pc, c: Choice, id: EventId, until: Time)
    requires LeasedUntil(s.t, id, until) && (pc.AppendBatch? ==> pc.newId != id) && s.cfg.leaseMs >= 0
    requires !((pc.FailWrite? || pc.ReplayBatch? || pc.MarkBatch?) && pc.id == id)
    ensures LeasedUntil(Effect(s, pc, c), id, until)
  {
  }

  lemma LeaseKept(w: World, e: Event, id: EventId, until: Time)
    requires Inv(w) && Enabled(w, e) && LeasedUntil(w.s.t, id, until) && !Reopens(w, e, id) && !Marks(w, e, id)
    ensures LeasedUntil(Next(w, e).s.t, id, until)
  {
    if e.Move? {
      assert PcInv(w.s, e.p, w.procs[e.p]);
      StepTables(w.s, e.p, w.procs[e.p], e.c);
      if !w.procs[e.p].Publish? && !e.c.fault.Refused? {
        NotRewritten(w.s, e.p, w.procs[e.p], id);
        EffectLease(w.s, w.procs[e.p], e.c, id, until);
      }
    }
  }

  lemma EffectReleases(s: Shared, pc: Pc, c: Choice, id: EventId, until: Time)
    requires (pc.FailWrite? || pc.ReplayBatch? || pc.MarkBatch?) && pc.id == id && until > EPOCH
    ensures !LeasedUntil(Effect(s, pc, c), id, until)
  {
  }

  /** A lease survives an event if and only if that event neither records a failure of its event, nor
      replays its dead letter, nor marks it published; who holds the lease does not matter. */
  lemma LeaseExact(w: World, e: Event, id: EventId, until: Time)
    requires Inv(w) && Enabled(w, e) && LeasedUntil(w.s.t, id, until) && until > EPOCH
    ensures LeasedUntil(Next(w, e).s.t, id, until) <==> !Reopens(w, e, id) && !Marks(w, e, id)
  {
    if Reopens(w, e, id) || Marks(w, e, id) {
      StepTables(w.s, e.p, w.procs[e.p], e.c);
      EffectReleases(w.s, w.procs[e.p], e.c, id, until);
    } else {
      LeaseKept(w, e, id, until);
    }
  }

  lemma {:induction false} LeaseLasts(w: World, run: seq<Event>, id: EventId, until: Time)
    requires Inv(w) && Legal(w, run) && LeasedUntil(w.s.t, id, until) && NeverReleases(w, run, id)
    ensures LeasedUntil(After(w, run).s.t, id, until)
    decreases |run|
  {
    if run != [] {
      LeaseKept(w, run[0], id, until);
      NextKeeps(w, run[0]);
      LeaseLasts(Next(w, run[0]), run[1..], id, until);
    }
  }

  lemma ClaimTakes(w: World, e: Event, id: EventId)
    requires Enabled(w, e) && Claims(w, e, id)
    ensures LeasedUntil(Next(w, e).s.t, id, e.c.now + w.s.cfg.leaseMs)
  {
    StepTables(w.s, e.p, w.procs[e.p], e.c);
  }

  /** Two successful claims on one event with no failure, mark or replay of it between them
      carry clock readings more than the lease duration apart, whoever owns them. */
  lemma LeaseSeparation(w: World, first: Event, run: seq<Event>, second: Event, id: EventId)
    requires Inv(w) && Enabled(w, first) && Claims(w, first, id)
    requires Legal(Next(w, first), run) && NeverReleases(Next(w, first), run, id)
    requires Claims(After(Next(w, first), run), second, id)
    ensures second.c.now > first.c.now + w.s.cfg.leaseMs
  {
    ClaimTakes(w, first, id);
    NextKeeps(w, first);
    LeaseLasts(Next(w, first), run, id, first.c.now + w.s.cfg.leaseMs);
  }

  // ---------- idempotency ----------

  /** All successful appends that met the same life of a key return one event with one content,
      and at most one of them says it is not a duplicate. */
  lemma Idempotency(cfg: Config, run: seq<Event>, i: nat, j: nat)
    requires Sound(cfg) && Legal(Initial(cfg), run)
    requires i < j < |After(Initial(cfg), run).s.h.results|
    requires var rs := After(Initial(cfg), run).s.h.results; rs[i].owner.Some? && rs[i].owner == rs[j].owner
    ensures var rs := After(Initial(cfg), run).s.h.results;
            rs[i].id == rs[j].id && rs[i].event == rs[j].event && (rs[i].duplicate || rs[j].duplicate)
  {
    Reachable(cfg, run);
    var h := After(Initial(cfg), run).s.h;
    assert ReturnOk(h.orig, h.owners, h.results[i]);
    assert ReturnOk(h.orig, h.owners, h.results[j]);
  }

  /** A cleanup pass deletes the row of a key. */
  predicate CleansKey(w: World, e: Event, key: Key) {
    Executes(w, e) && w.procs[e.p].CleanKeys? && w.procs[e.p].stale != [] && w.procs[e.p].stale[0].key == key
  }

  predicate NeverCleans(w: World, run: seq<Event>, key: Key)
    requires Legal(w, run)
    decreases |run|
  {
    run == [] || (!CleansKey(w, run[0], key) && NeverCleans(Next(w, run[0]), run[1..], key))
  }

  lemma ReportAddsOnly(s: Shared, pc: Pc)
    ensures Report(s, pc).lives == s.h.lives && Report(s, pc).issued == s.h.issued
  {
  }

  lemma NoteLives(s: Shared, p: Pid, pc: Pc)
    ensures Note(s, p, pc).lives ==
            if pc.CleanKeys? && pc.stale != [] then s.h.lives[pc.stale[0].key := Life(s.h.lives, pc.stale[0].key) + 1] else s.h.lives
  {
  }

  lemma AttemptLives(s: Shared, p: Pid, pc: Pc, c: Choice)
    requires pc.Publish?
    ensures Attempt(s, p, pc, c).h.lives == s.h.lives
  {
    var s1 := Offer(s, pc.msg, c.fault.Refused?);
    assert s1.h.lives == s.h.lives;
    assert GiveUp(s1, pc.msg.id, Token(p, c.draw)).h.lives == s1.h.lives;
  }

  lemma StepLives(s: Shared, p: Pid, pc: Pc, c: Choice)
    ensures Step(s, p, pc, c).h.lives == if pc.Publish? || c.fault.Refused? then s.h.lives else Note(s, p, pc).lives
  {
    if pc.Publish? {
      AttemptLives(s, p, pc, c);
    } else if c.fault.Fine? {
      ReportAddsOnly(Perform(s, p, pc, c), pc);
    }
  }

  /** A key starts a new life exactly when a cleanup pass deletes it. */
  lemma LifeChanges(w: World, e: Event, key: Key)
    requires Enabled(w, e)
    ensures Life(Next(w, e).s.h.lives, key) == Life(w.s.h.lives, key) + if CleansKey(w, e, key) then 1 else 0
  {
    if e.Move? {
      StepLives(w.s, e.p, w.procs[e.p], e.c);
      NoteLives(w.s, e.p, w.procs[e.p]);
    }
  }

  lemma {:induction false} LifeStays(w: World, run: seq<Event>, key: Key)
    requires Legal(w, run) && NeverCleans(w, run, key)
    ensures Life(After(w, run).s.h.lives, key) == Life(w.s.h.lives, key)
    decreases |run|
  {
    if run != [] {
      LifeChanges(w, run[0], key);
      LifeStays(Next(w, run[0]), run[1..], key);
    }
  }

  /** As long as a key is never cleaned, it stands for one event for all appends of the run. */
  lemma OneEventPerKey(cfg: Config, run: seq<Event>, key: Key, i: nat, j: nat)
    requires Sound(cfg) && Legal(Initial(cfg), run) && NeverCleans(Initial(cfg), run, key)
    requires i < j < |After(Initial(cfg), run).s.h.results|
    requires var rs := After(Initial(cfg), run).s.h.results;
             rs[i].owner.Some? && rs[j].owner.Some? && rs[i].owner.value.key == key && rs[j].owner.value.key == key
    ensures var rs := After(Initial(cfg), run).s.h.results;
            rs[i].id == rs[j].id && rs[i].event == rs[j].event && (rs[i].duplicate || rs[j].duplicate)
  {
    LifeStays(Initial(cfg), run, key);
    Reachable(cfg, run);
    var h := After(Initial(cfg), run).s.h;
    assert ReturnOk(h.orig, h.owners, h.results[i]);
    assert ReturnOk(h.orig, h.owners, h.results[j]);
    Idempotency(cfg, run, i, j);
  }

  // ---------- at-most-once emission ----------

  /** For messages that carry an id, a consumer name writes each message id at most once over
      all nodes and runs, however often the broker log holds it; and it claimed it before. */
  lemma AtMostOnceEmission(cfg: Config, run: seq<Event>, i: nat, j: nat)
    requires Sound(cfg) && Legal(Initial(cfg), run)
    requires i < |After(Initial(cfg), run).s.h.emitted| && j < |After(Initial(cfg), run).s.h.emitted|
    requires var es := After(Initial(cfg), run).s.h.emitted;
             !es[i].delivery.message.NoId? && es[i].consumer == es[j].consumer && es[i].delivery.message == es[j].delivery.message
    ensures i == j
    ensures InboxKey(After(Initial(cfg), run).s.h.emitted[i].consumer, After(Initial(cfg), run).s.h.emitted[i].delivery.message) in After(Initial(cfg), run).s.t.inbox
  {
    Reachable(cfg, run);
    var h := After(Initial(cfg), run).s.h;
    assert EmissionKey(h.emitted[i]) == EmissionKey(h.emitted[j]);
    assert EmissionOk(h.orig, h.claims, h.emitted[i]);
  }

  // ---------- no premature quarantine ----------

  /** A publication round of the event ends without success. */
  predicate RoundFails(w: World, e: Event, id: EventId) {
    && e.Move? && e.p in w.procs && w.procs[e.p].Publish? && w.procs[e.p].msg.id == id
    && !e.c.fault.Fine? && LastAttempt(w.s, w.procs[e.p], e.c)
  }

  function FailedRounds(w: World, run: seq<Event>, id: EventId): nat
    requires Legal(w, run)
    decreases |run|
  {
    if run == [] then 0
    else (if RoundFails(w, run[0], id) then 1 else 0) + FailedRounds(Next(w, run[0]), run[1..], id)
  }

  lemma AttemptIssued(s: Shared, p: Pid, pc: Pc, c: Choice, id: EventId)
    requires pc.Publish? && Token(p, c.draw) !in Tokens(s.h.issued, pc.msg.id)
    ensures |Tokens(Attempt(s, p, pc, c).h.issued, id)| == |Tokens(s.h.issued, id)| +
            if pc.msg.id == id && !c.fault.Fine? && LastAttempt(s, pc, c) then 1 else 0
  {
    GrowTokens(s.h.issued, pc.msg.id, Token(p, c.draw), id);
  }

  lemma StepIssued(s: Shared, p: Pid, pc: Pc, c: Choice, id: EventId)
    requires pc.Publish? ==> Token(p, c.draw) !in Tokens(s.h.issued, pc.msg.id)
    ensures |Tokens(Step(s, p, pc, c).h.issued, id)| == |Tokens(s.h.issued, id)| +
            if pc.Publish? && pc.msg.id == id && !c.fault.Fine? && LastAttempt(s, pc, c) then 1 else 0
  {
    if pc.Publish? {
      AttemptIssued(s, p, pc, c, id);
    } else {
      ReportAddsOnly(Perform(s, p, pc, c), pc);
    }
  }

  lemma {:induction false} RoundsCounted(w: World, run: seq<Event>, id: EventId)
    requires Legal(w, run)
    ensures |Tokens(After(w, run).s.h.issued, id)| == |Tokens(w.s.h.issued, id)| + FailedRounds(w, run, id)
    decreases |run|
  {
    if run != [] {
      if run[0].Move? {
        StepIssued(w.s, run[0].p, w.procs[run[0].p], run[0].c, id);
      }
      RoundsCounted(Next(w, run[0]), run[1..], id);
    }
  }

  lemma CountsBounded(s: Shared, id: EventId)
    requires SharedInv(s)
    ensures |Tokens(s.h.recorded, id)| <= |Tokens(s.h.issued, id)|
  {
    SubsetSize(Tokens(s.h.recorded, id), Tokens(s.h.issued, id));
  }

  /** The records a process carries. */
  function Carried(pc: Pc): seq<Record> {
    match pc
    case Publish(_, _, rest) => rest
    case MarkRead(_, _, rest) => rest
    case MarkBatch(_, _, _, rest) => rest
    case FailRead(_, _, rest) => rest
    case FailWrite(_, _, _, _, rest) => rest
    case DeadRead(_, _, _, _, rest) => rest
    case DeadBatch(_, _, rest) => rest
    case RelayCheck(_, _, out, _) => out
    case RelayClaim(queue) => queue
    case _ => []
  }

  /** No local copy of a retry count of the event exceeds n, and what is on its way into or out of the
      dead letters has reached the limit. */
  predicate CarriesAtMost(pc: Pc, id: EventId, limit: int, n: nat) {
    && (pc.FailWrite? && pc.id == id ==> pc.count <= n)
    && (pc.DeadRead? && pc.id == id ==> limit <= pc.count <= n)
    && ((pc.DeadBatch? || pc.ReplayFind? || pc.ReplayBatch?) && pc.id == id ==> limit <= pc.letter.row.retryCount <= n)
    && (forall i :: 0 <= i < |Carried(pc)| && Carried(pc)[i].id == id ==> Carried(pc)[i].retryCount <= n)
  }

  lemma CarriedOk(s: Shared, p: Pid, pc: Pc)
    requires PcInv(s, p, pc)
    ensures QueueOk(s.h, Carried(pc))
  {
  }

  lemma InFlightBounded(s: Shared, p: Pid, pc: Pc, id: EventId)
    requires SharedInv(s) && PcInv(s, p, pc)
    ensures CarriesAtMost(pc, id, s.cfg.policy.quarantineAfter, |Tokens(s.h.issued, id)|)
  {
    CountsBounded(s, id);
    CarriedOk(s, p, pc);
    forall i | 0 <= i < |Carried(pc)| && Carried(pc)[i].id == id ensures Carried(pc)[i].retryCount <= |Tokens(s.h.recorded, id)| {
      assert RecordOk(s.h, Carried(pc)[i]);
    }
    if pc.FailWrite? && pc.id == id {
      assert Tokens(s.h.recorded, id) <= Tokens(s.h.issued, id);
      SubsetSize(Tokens(s.h.recorded, id) + {pc.token}, Tokens(s.h.issued, id));
    }
  }

  /** No retry count, stored, dead-lettered or in flight, exceeds the failed publication rounds
      of its event, lost updates included; so a quarantine or dead letter needs that many. */
  lemma NoPrematureQuarantine(cfg: Config, run: seq<Event>, id: EventId)
    requires Sound(cfg) && Legal(Initial(cfg), run)
    ensures var w := After(Initial(cfg), run);
            var rounds := FailedRounds(Initial(cfg), run, id);
            && (id in w.s.t.retry ==> w.s.t.retry[id].retryCount <= rounds)
            && (id in w.s.t.retry && w.s.t.retry[id].quarantined ==> cfg.policy.quarantineAfter <= rounds)
            && (forall k :: k in w.s.t.deadByTime && k.id == id ==> cfg.policy.quarantineAfter <= w.s.t.deadByTime[k].retryCount <= rounds)
            && (id in w.s.t.deadById ==> cfg.policy.quarantineAfter <= w.s.t.deadById[id].row.retryCount <= rounds)
            && (forall p :: p in w.procs ==> CarriesAtMost(w.procs[p], id, cfg.policy.quarantineAfter, rounds))
  {
    var w := After(Initial(cfg), run);
    Reachable(cfg, run);
    ConfigKept(Initial(cfg), run);
    RoundsCounted(Initial(cfg), run, id);
    CountsBounded(w.s, id);
    if id in w.s.t.deadById {
      assert Slot(w.s.t.deadById[id].at, id) in w.s.t.deadByTime;
    }
    forall p | p in w.procs ensures CarriesAtMost(w.procs[p], id, cfg.policy.quarantineAfter, |Tokens(w.s.h.issued, id)|) {
      InFlightBounded(w.s, p, w.procs[p], id);
    }
  }

  lemma {:induction false} ConfigKept(w: World, run: seq<Event>)
    requires Legal(w, run)
    ensures After(w, run).s.cfg == w.s.cfg
    decreases |run|
  {
    if run != [] { ConfigKept(Next(w, run[0]), run[1..]); }
  }

  // ---------- dead-letter views ----------

  /** In every run each dead letter found by id is listed by time with equal fields, and its
      outbox row exists with equal content: a replay always finds the outbox row. */
  lemma DeadLettersBacked(cfg: Config, run: seq<Event>, id: EventId)
    requires Sound(cfg) && Legal(Initial(cfg), run)
    ensures var w := After(Initial(cfg), run);
            && (id in w.s.t.deadById ==>
                  var letter := w.s.t.deadById[id];
                  && Slot(letter.at, id) in w.s.t.deadByTime && w.s.t.deadByTime[Slot(letter.at, id)] == letter.row
                  && id in w.s.t.outbox && w.s.t.outbox[id].body == letter.row.body)
            && (forall p :: p in w.procs && w.procs[p].ReplayFind? ==> w.procs[p].id in w.s.t.outbox)
  {
    Reachable(cfg, run);
    var w := After(Initial(cfg), run);
    forall p | p in w.procs && w.procs[p].ReplayFind? ensures w.procs[p].id in w.s.t.outbox {
      assert PcInv(w.s, p, w.procs[p]);
    }
  }
}
