/** When an event is due: what appends and recorded failures write into the retry row, and what the scans
    of all relays make of it over whole runs. */
module DueTimes {
  import opened Schema
  import opened Statements
  import opened Protocol
  import opened Operations
  import opened Handout
  import opened Invariant
  import opened Moves
  import opened Guarantees
  import opened Backoff

  // ---------- a new event ----------

  lemma NothingThere(s: Shared, p: Pid, pc: Pc)
    requires SharedInv(s) && PcInv(s, p, pc) && pc.AppendBatch?
    ensures pc.newId !in s.t.outbox && pc.newId !in s.t.retry
  {
  }

  /** The batch of an append, in every world of the invariant: the event can be handed out from its own time
      on, and claimed at every time after the epoch. */
  lemma BatchDue(w: World, e: Event, u: Time)
    requires Inv(w) && Enabled(w, e) && Executes(w, e) && w.procs[e.p].AppendBatch?
    ensures var pc, t := w.procs[e.p], Next(w, e).s.t;
            && NewRows(t, pc.newId, pc.req.row)
            && (Eligible(t, pc.newId, u) <==> u >= pc.req.row.occurredAt && u >= EPOCH)
            && (LeaseFree(t, pc.newId, u) <==> u > EPOCH)
  {
    var pc := w.procs[e.p];
    assert PcInv(w.s, e.p, pc);
    NothingThere(w.s, e.p, pc);
    StepTables(w.s, e.p, pc, e.c);
    BatchWrites(w.s.t, pc.newId, pc.req.row);
    NewRowsDue(Next(w, e).s.t, pc.newId, pc.req.row, u);
  }

  // ---------- the relays' scans ----------

  /** A relay at pc has looked at the first row of its page and stands at pc': it has taken the row if and
      only if the read worked and nothing in the retry row held the event back at the clock reading. */
  ghost predicate Looked(t: Tables, pc: Pc, c: Choice, pc': Pc)
    requires pc.RelayCheck? && pc.page != []
  {
    var row := pc.page[0];
    && row in pc.bodies && pc'.RelayCheck? && pc'.page == pc.page[1..] && pc'.bodies == pc.bodies && pc'.room == pc.room
    && (c.fault.Fine? && !Held(t, row.id, c.now) ==>
          pc'.out == pc.out + [Record(row.id, pc.bodies[row], row.at, if row.id in t.retry then t.retry[row.id].retryCount else 0)])
    && (!c.fault.Fine? || Held(t, row.id, c.now) ==> pc'.out == pc.out)
  }

  lemma CheckMoves(s: Shared, p: Pid, pc: Pc, c: Choice)
    requires pc.RelayCheck? && pc.page != [] && |pc.out| < pc.room && pc.page[0] in pc.bodies
    ensures Step(s, p, pc, c) == s && Looked(s.t, pc, c, StepPc(s, p, pc, c))
  {
    assert Perform(s, p, pc, c) == s;
  }

  lemma PageBacked(s: Shared, p: Pid, pc: Pc)
    requires PcInv(s, p, pc) && pc.RelayCheck? && pc.page != []
    ensures pc.page[0] in pc.bodies
  {
  }

  /** In every run a relay that looks at a row of its page changes nothing in the store, and takes the row if
      and only if nothing holds its event back at that moment. */
  lemma CheckExact(cfg: Config, run: seq<Event>, p: Pid, c: Choice, w: World)
    requires Sound(cfg) && Legal(Initial(cfg), run) && w == After(Initial(cfg), run) && Enabled(w, Move(p, c))
    requires w.procs[p].RelayCheck? && w.procs[p].page != [] && |w.procs[p].out| < w.procs[p].room
    ensures Next(w, Move(p, c)).s == w.s && Looked(w.s.t, w.procs[p], c, Next(w, Move(p, c)).procs[p])
  {
    Reachable(cfg, run);
    PageBacked(w.s, p, w.procs[p]);
    CheckMoves(w.s, p, w.procs[p], c);
  }

  // ---------- recorded failures ----------

  /** The retry row a failure leaves, column by column; `first` is when the event first failed. */
  ghost predicate FailureRow(t: Tables, id: EventId, count: nat, next: Time, error: string, limit: int, now: Time, first: Time) {
    && id in t.retry
    && t.retry[id] == RetryRow(count, next, error, "", Some(EPOCH), count >= limit, Some(now), Some(first))
  }

  /** The count and the first failure a failure finds. */
  function CountBefore(t: Tables, id: EventId): nat {
    if id in t.retry then t.retry[id].retryCount else 0
  }

  function FirstFailed(t: Tables, id: EventId, now: Time): Time {
    if id in t.retry && t.retry[id].firstFailed != None then t.retry[id].firstFailed.value else now
  }

  lemma LetteredRow(t: Tables, id: EventId, count: nat, error: string, now: Time, f: nat -> Fault)
    ensures LetteredUnder(t, id, count, error, now, f).0.retry == t.retry
  {
    if id in t.outbox { LetterLeaves(t, id, DeadLetter(now, DeadRow(t.outbox[id].body, count, error))); }
  }

  lemma FailureWritten(t: Tables, id: EventId, count: nat, next: Time, error: string, limit: int, now: Time, first: Time)
    ensures FailureRow(WriteFailure(t, id, count, next, error, count >= limit, now, first), id, count, next, error, limit, now, first)
  {
  }

  lemma UntilRow(t: Tables, id: EventId, error: string, limit: int, next: Time, now: Time, f: nat -> Fault)
    requires f(0).Fine? && !f(1).Refused?
    ensures FailureRow(FailedUntilUnder(t, id, error, limit, next, now, f).0, id, CountBefore(t, id) + 1, next, error, limit, now, FirstFailed(t, id, now))
  {
    var count, first := CountBefore(t, id) + 1, FirstFailed(t, id, now);
    assert count == RetryCountOf(t, id) + 1 && first == FirstFailure(t, id, now);
    var t1 := WriteFailure(t, id, count, next, error, count >= limit, now, first);
    FailureWritten(t, id, count, next, error, limit, now, first);
    LetteredRow(t1, id, count, error, now, f);
    assert FailedUntilUnder(t, id, error, limit, next, now, f).0 == t1
        || FailedUntilUnder(t, id, error, limit, next, now, f).0 == LetteredUnder(t1, id, count, error, now, f).0;
  }

  /** What recording a failure answers: the new count once the old one could be read, an error exactly when a
      statement fails or a quarantined event has no outbox row, and whether it quarantined. */
  lemma FailureAnswer(t: Tables, id: EventId, error: string, policy: Policy, draw: nat, now: Time, f: nat -> Fault)
    ensures var r, count := FailedUnder(t, id, error, policy, draw, now, f).1, CountBefore(t, id) + 1;
            && r.count == (if f(0).Fine? then count else 0)
            && (r.quarantined <==> f(0).Fine? && f(1).Fine? && count >= policy.quarantineAfter)
            && (r.error == None <==> f(0).Fine? && f(1).Fine? && (count >= policy.quarantineAfter ==> f(2).Fine? && f(3).Fine? && id in t.outbox))
  {
    UntilAnswer(t, id, error, policy.quarantineAfter, NextDue(t, id, policy, draw, now), now, f);
  }

  lemma UntilAnswer(t: Tables, id: EventId, error: string, limit: int, next: Time, now: Time, f: nat -> Fault)
    ensures var r, count := FailedUntilUnder(t, id, error, limit, next, now, f).1, CountBefore(t, id) + 1;
            && r.count == (if f(0).Fine? then count else 0)
            && (r.quarantined <==> f(0).Fine? && f(1).Fine? && count >= limit)
            && (r.error == None <==> f(0).Fine? && f(1).Fine? && (count >= limit ==> f(2).Fine? && f(3).Fine? && id in t.outbox))
  {
    var count := RetryCountOf(t, id) + 1;
    FailureKeepsOutbox(t, id, count, next, error, count >= limit, now, FirstFailure(t, id, now));
  }

  lemma FailureKeepsOutbox(t: Tables, id: EventId, count: nat, next: Time, error: string, quarantined: bool, now: Time, first: Time)
    ensures WriteFailure(t, id, count, next, error, quarantined, now, first).outbox == t.outbox
  {
  }

  /** A failure recorded under any faults that let its write execute: the next attempt is due after the
      configured wait for the new count. */
  lemma FailedUnderDue(t: Tables, id: EventId, error: string, c: Settings, draw: nat, now: Time, f: nat -> Fault)
    requires Validated(c) && Fits(c) && f(0).Fine? && !f(1).Refused?
    ensures var t' := FailedUnder(t, id, error, PolicyOf(c), draw, now, f).0;
            && id in t'.retry && OnSchedule(c, CountBefore(t, id) + 1, t'.retry[id].nextAttempt - now)
            && FailureRow(t', id, CountBefore(t, id) + 1, t'.retry[id].nextAttempt, error, c.quarantineAfter, now, FirstFailed(t, id, now))
  {
    ValidatedPolicy(c);
    WaitOnSchedule(c, RetryCountOf(t, id) + 1, draw);
    UntilRow(t, id, error, PolicyOf(c).quarantineAfter, NextDue(t, id, PolicyOf(c), draw, now), now, f);
  }

  lemma FailedDue(t: Tables, id: EventId, error: string, c: Settings, draw: nat, now: Time)
    requires Validated(c) && Fits(c)
    ensures var t' := Failed(t, id, error, PolicyOf(c), draw, now).0;
            && id in t'.retry && OnSchedule(c, CountBefore(t, id) + 1, t'.retry[id].nextAttempt - now)
            && FailureRow(t', id, CountBefore(t, id) + 1, t'.retry[id].nextAttempt, error, c.quarantineAfter, now, FirstFailed(t, id, now))
  {
    WorkingFailure(t, id, error, PolicyOf(c), draw, now);
    FailedUnderDue(t, id, error, c, draw, now, WORKING);
  }

  /** A failure of the event is recorded. */
  predicate RecordsFailure(w: World, e: Event, id: EventId) {
    Executes(w, e) && w.procs[e.p].FailWrite? && w.procs[e.p].id == id
  }

  lemma FailWriteRow(s: Shared, pc: Pc, c: Choice, next: Time)
    requires pc.FailWrite? && NextAttempt(s.cfg, pc.count, c) == next
    ensures FailureRow(Effect(s, pc, c), pc.id, pc.count, next, c.text, s.cfg.policy.quarantineAfter, c.now,
                       if pc.first.Some? then pc.first.value else c.now)
  {
  }

  lemma NextOnSchedule(cfg: Config, count: nat, c: Choice, settings: Settings)
    requires cfg.policy == PolicyOf(settings) && Validated(settings) && Fits(settings) && count >= 1
    ensures OnSchedule(settings, count, NextAttempt(cfg, count, c) - c.now)
  {
    WaitOnSchedule(settings, count, c.draw);
  }

  /** The same for the protocol's statement, with the count its process read. */
  lemma FailWriteDue(w: World, e: Event, id: EventId, c: Settings)
    requires Inv(w) && Enabled(w, e) && RecordsFailure(w, e, id)
    requires Validated(c) && Fits(c) && w.s.cfg.policy == PolicyOf(c)
    ensures var pc, t := w.procs[e.p], Next(w, e).s.t;
            && pc.count >= 1 && id in t.retry && OnSchedule(c, pc.count, t.retry[id].nextAttempt - e.c.now)
            && FailureRow(t, id, pc.count, t.retry[id].nextAttempt, e.c.text, c.quarantineAfter, e.c.now,
                          if pc.first.Some? then pc.first.value else e.c.now)
  {
    var pc := w.procs[e.p];
    assert PcInv(w.s, e.p, pc);
    ValidatedPolicy(c);
    StepTables(w.s, e.p, pc, e.c);
    NextOnSchedule(w.s.cfg, pc.count, e.c, c);
    FailWriteRow(w.s, pc, e.c, NextAttempt(w.s.cfg, pc.count, e.c));
  }

  // ---------- from a recorded failure until the next attempt ----------

  predicate DueFrom(t: Tables, id: EventId, due: Time) {
    id in t.retry && t.retry[id].nextAttempt >= due
  }

  /** The next attempt that a recorded failure or a replay writes. */
  function Rewritten(w: World, e: Event, id: EventId): Time
    requires Reopens(w, e, id)
  {
    if w.procs[e.p].FailWrite? then NextAttempt(w.s.cfg, w.procs[e.p].count, e.c) else w.procs[e.p].now
  }

  /** The event moves the next attempt before `due`: by a mark, which deletes it, or by a failure or replay
      that writes an earlier one. */
  predicate Advances(w: World, e: Event, id: EventId, due: Time) {
    Marks(w, e, id) || (Reopens(w, e, id) && Rewritten(w, e, id) < due)
  }

  lemma EffectDue(s: Shared, pc: Pc, c: Choice, id: EventId, due: Time)
    requires DueFrom(s.t, id, due) && (pc.AppendBatch? ==> pc.newId != id)
    requires !((pc.FailWrite? || pc.ReplayBatch? || pc.MarkBatch?) && pc.id == id)
    ensures DueFrom(Effect(s, pc, c), id, due)
  {
  }

  lemma EffectRewrites(s: Shared, pc: Pc, c: Choice, id: EventId, due: Time, next: Time)
    requires (pc.FailWrite? && next == NextAttempt(s.cfg, pc.count, c)) || (pc.ReplayBatch? && next == pc.now)
    requires pc.id == id
    ensures DueFrom(Effect(s, pc, c), id, due) <==> next >= due
  {
  }

  lemma EffectUndated(s: Shared, pc: Pc, c: Choice, id: EventId, due: Time)
    requires pc.MarkBatch? && pc.id == id
    ensures !DueFrom(Effect(s, pc, c), id, due)
  {
  }

  /** An event that is not due before some time stays so through one event of a run if and only if that
      event does not advance it. */
  lemma DueExact(w: World, e: Event, id: EventId, due: Time)
    requires Inv(w) && Enabled(w, e) && DueFrom(w.s.t, id, due)
    ensures DueFrom(Next(w, e).s.t, id, due) <==> !Advances(w, e, id, due)
  {
    if e.Move? {
      var pc := w.procs[e.p];
      assert PcInv(w.s, e.p, pc);
      StepTables(w.s, e.p, pc, e.c);
      if Reopens(w, e, id) {
        EffectRewrites(w.s, pc, e.c, id, due, Rewritten(w, e, id));
      } else if Marks(w, e, id) {
        EffectUndated(w.s, pc, e.c, id, due);
      } else if Executes(w, e) && !pc.Publish? {
        NotRewritten(w.s, e.p, pc, id);
        EffectDue(w.s, pc, e.c, id, due);
      }
    }
  }

  predicate NeverAdvances(w: World, run: seq<Event>, id: EventId, due: Time)
    requires Legal(w, run)
    decreases |run|
  {
    run == [] || (!Advances(w, run[0], id, due) && NeverAdvances(Next(w, run[0]), run[1..], id, due))
  }

  lemma {:induction false} DueLasts(w: World, run: seq<Event>, id: EventId, due: Time)
    requires Inv(w) && Legal(w, run) && DueFrom(w.s.t, id, due) && NeverAdvances(w, run, id, due)
    ensures DueFrom(After(w, run).s.t, id, due) && Inv(After(w, run))
    decreases |run|
  {
    if run != [] {
      DueExact(w, run[0], id, due);
      NextKeeps(w, run[0]);
      DueLasts(Next(w, run[0]), run[1..], id, due);
    }
  }

  /** The move looks at the row of an event and takes it into the batch of its relay. */
  predicate PicksUp(w: World, e: Event, id: EventId)
    requires Enabled(w, e)
  {
    && e.Move? && w.procs[e.p].RelayCheck? && w.procs[e.p].page != [] && w.procs[e.p].page[0].id == id
    && Next(w, e).procs[e.p].RelayCheck? && |Next(w, e).procs[e.p].out| > |w.procs[e.p].out|
  }

  lemma FullStops(s: Shared, p: Pid, pc: Pc, c: Choice)
    requires pc.RelayCheck? && pc.page != [] && |pc.out| >= pc.room
    ensures var pc' := StepPc(s, p, pc, c); pc'.RelayCheck? ==> pc'.out == pc.out
  {
  }

  lemma PickedStep(s: Shared, p: Pid, pc: Pc, c: Choice, due: Time)
    requires pc.RelayCheck? && pc.page != [] && pc.page[0] in pc.bodies && DueFrom(s.t, pc.page[0].id, due)
    requires var pc' := StepPc(s, p, pc, c); pc'.RelayCheck? && |pc'.out| > |pc.out|
    ensures c.now >= due
  {
    if |pc.out| < pc.room { CheckMoves(s, p, pc, c); } else { FullStops(s, p, pc, c); }
  }

  lemma PickedDue(w: World, e: Event, id: EventId, due: Time)
    requires Inv(w) && Enabled(w, e) && PicksUp(w, e, id) && DueFrom(w.s.t, id, due)
    ensures e.c.now >= due
  {
    PageBacked(w.s, e.p, w.procs[e.p]);
    PickedStep(w.s, e.p, w.procs[e.p], e.c, due);
  }

  /** An event whose next attempt is not due before some time is picked up by no relay's scan at an earlier
      clock reading, in every run that does not advance it. */
  lemma HeldUntilDue(w: World, run: seq<Event>, e: Event, id: EventId, due: Time)
    requires Inv(w) && DueFrom(w.s.t, id, due) && Legal(w, run) && NeverAdvances(w, run, id, due)
    requires Enabled(After(w, run), e) && PicksUp(After(w, run), e, id)
    ensures e.c.now >= due
  {
    DueLasts(w, run, id, due);
    PickedDue(After(w, run), e, id, due);
  }

  /** The earliest moment at which a failure recorded at `now` lets the event be tried again. */
  function Earliest(c: Settings, count: nat, now: Time): Time
    requires count >= 1
  {
    now + if c.jitterPct <= 0 then Schedule(BaseMs(c), CapMs(c), count) else 10
  }

  /** From a recorded failure on, no relay's scan picks the event up before the configured wait is over, unless
      a mark, a replay or another failure in between advances it. */
  lemma FailureHolds(w: World, fail: Event, run: seq<Event>, e: Event, id: EventId, c: Settings, due: Time)
    requires Inv(w) && Enabled(w, fail) && RecordsFailure(w, fail, id) && w.procs[fail.p].count >= 1
    requires Validated(c) && Fits(c) && w.s.cfg.policy == PolicyOf(c) && due == Earliest(c, w.procs[fail.p].count, fail.c.now)
    requires Legal(Next(w, fail), run) && NeverAdvances(Next(w, fail), run, id, due)
    requires Enabled(After(Next(w, fail), run), e) && PicksUp(After(Next(w, fail), run), e, id)
    ensures e.c.now >= due
  {
    FailWriteDue(w, fail, id, c);
    NextKeeps(w, fail);
    HeldUntilDue(Next(w, fail), run, e, id, due);
  }
}
