/** Quarantine and replay of one event while everything else goes on. */
module QuarantineReplay {
  import opened Schema
  import opened Statements
  import opened Protocol
  import opened Invariant
  import opened Moves
  import opened Guarantees
  import opened EventLetters
  import opened Runs

  /** The statement writes a row of the event. */
  predicate About(pc: Pc, id: EventId) {
    || (pc.AppendBatch? && pc.newId == id)
    || ((pc.MarkBatch? || pc.FailWrite? || pc.DeadBatch? || pc.ReplayBatch?) && pc.id == id)
    || (pc.RelayClaim? && pc.queue != [] && pc.queue[0].id == id)
    || (pc.CleanDead? && pc.slots != [] && pc.slots[0].id == id)
  }

  /** No statement of the run writes a row of the event. */
  predicate Untouched(w: World, run: seq<Event>, id: EventId)
    requires Legal(w, run)
    decreases |run|
  {
    run == [] || (!(Executes(w, run[0]) && About(w.procs[run[0].p], id)) && Untouched(Next(w, run[0]), run[1..], id))
  }

  /** The outbox row and the index rows of the event are as before. */
  ghost predicate SameOutbox(t: Tables, t': Tables, id: EventId) {
    && (id in t'.outbox <==> id in t.outbox) && (id in t.outbox ==> t'.outbox[id] == t.outbox[id])
    && (forall k: Slot :: k.id == id ==> (k in t'.pending <==> k in t.pending))
    && (forall k: Slot :: k.id == id && k in t.pending && k in t'.pending ==> t'.pending[k] == t.pending[k])
  }

  /** All rows of the event but its retry row are as before. */
  ghost predicate SameRows(t: Tables, t': Tables, id: EventId) {
    SameOutbox(t, t', id) && SameLetters(t, t', id)
  }

  lemma NoOutboxStatement(s: Shared, pc: Pc, c: Choice)
    requires !pc.AppendBatch? && !pc.MarkBatch? && !pc.ReplayBatch?
    ensures Effect(s, pc, c).outbox == s.t.outbox && Effect(s, pc, c).pending == s.t.pending
  {
  }

  lemma OutboxFrame(s: Shared, pc: Pc, c: Choice, id: EventId)
    requires !((pc.AppendBatch? && pc.newId == id) || ((pc.MarkBatch? || pc.ReplayBatch?) && pc.id == id))
    ensures SameOutbox(s.t, Effect(s, pc, c), id)
  {
    if pc.AppendBatch? {
      assert Effect(s, pc, c) == WriteEvent(s.t, pc.newId, pc.req.row);
    } else if pc.MarkBatch? {
      assert Effect(s, pc, c) == MarkPublished(s.t, pc.id, pc.occurredAt, pc.brokerId, c.now);
    } else if pc.ReplayBatch? {
      assert Effect(s, pc, c) == ReplayLetter(s.t, pc.id, pc.letter, pc.occurredAt, pc.now);
    } else {
      NoOutboxStatement(s, pc, c);
    }
  }

  lemma UntouchedStep(w: World, e: Event, id: EventId)
    requires Enabled(w, e) && !(Executes(w, e) && About(w.procs[e.p], id))
    ensures SameRows(w.s.t, Next(w, e).s.t, id)
  {
    if e.Move? {
      StepTables(w.s, e.p, w.procs[e.p], e.c);
      if !w.procs[e.p].Publish? && !e.c.fault.Refused? {
        OutboxFrame(w.s, w.procs[e.p], e.c, id);
        LetterFrame(w.s, w.procs[e.p], e.c, id);
      }
    }
  }

  lemma SameTrans(t: Tables, t1: Tables, t2: Tables, id: EventId)
    requires SameRows(t, t1, id) && SameRows(t1, t2, id)
    ensures SameRows(t, t2, id)
  {
  }

  lemma {:induction false} UntouchedRun(w: World, run: seq<Event>, id: EventId)
    requires Legal(w, run) && Untouched(w, run, id)
    ensures SameRows(w.s.t, After(w, run).s.t, id)
    decreases |run|
  {
    if run != [] {
      UntouchedStep(w, run[0], id);
      UntouchedRun(Next(w, run[0]), run[1..], id);
      SameTrans(w.s.t, Next(w, run[0]).s.t, After(w, run).s.t, id);
    }
  }

  // ---------- what the processes carry ----------

  predicate Replaying(pc: Pc, id: EventId) {
    (pc.ReplayFind? || pc.ReplayBatch?) && pc.id == id
  }

  /** The by-id view holds this letter of the event, or none, and so does every replay under way. */
  ghost predicate Letter(w: World, id: EventId, letter: Option<DeadLetter>) {
    && (letter.None? ==> id !in w.s.t.deadById)
    && (letter.Some? ==> id in w.s.t.deadById && w.s.t.deadById[id] == letter.value)
    && (forall q :: q in w.procs && Replaying(w.procs[q], id) ==> letter == Some(w.procs[q].letter))
  }

  lemma NoReplayOnError(pc: Pc, id: EventId)
    ensures !Replaying(OnError(pc), id)
  {
  }

  lemma ReplayReads(s: Shared, p: Pid, pc: Pc, c: Choice, id: EventId)
    requires Replaying(StepPc(s, p, pc, c), id)
    ensures (pc.ReplayRead? && pc.id == id && id in s.t.deadById && StepPc(s, p, pc, c).letter == s.t.deadById[id])
         || (Replaying(pc, id) && StepPc(s, p, pc, c).letter == pc.letter)
  {
    NoReplayOnError(pc, id);
    if !pc.ReplayRead? && !pc.ReplayFind? && !pc.Publish? { NoReplayProceeds(s, p, pc, c, id); }
  }

  lemma NoReplayProceeds(s: Shared, p: Pid, pc: Pc, c: Choice, id: EventId)
    requires !pc.ReplayRead? && !pc.ReplayFind?
    ensures !Replaying(Proceed(s, p, pc, c), id)
  {
  }

  lemma LetterStays(w: World, e: Event, id: EventId, letter: Option<DeadLetter>)
    requires Letter(w, id, letter) && Enabled(w, e) && SameLetters(w.s.t, Next(w, e).s.t, id)
    ensures Letter(Next(w, e), id, letter)
  {
    var w' := Next(w, e);
    forall q | q in w'.procs && Replaying(w'.procs[q], id) ensures letter == Some(w'.procs[q].letter) {
      if e.Move? && q == e.p { ReplayReads(w.s, q, w.procs[q], e.c, id); }
    }
  }

  lemma {:induction false} LetterThroughout(w: World, run: seq<Event>, id: EventId, letter: Option<DeadLetter>)
    requires Letter(w, id, letter) && Legal(w, run) && Untouched(w, run, id)
    ensures Letter(After(w, run), id, letter)
    decreases |run|
  {
    if run != [] {
      UntouchedStep(w, run[0], id);
      LetterStays(w, run[0], id, letter);
      LetterThroughout(Next(w, run[0]), run[1..], id, letter);
    }
  }

  /** If p is on its way to writing a letter of the event, it is this one. */
  predicate OnItsWay(w: World, p: Pid, id: EventId, letter: DeadLetter) {
    p in w.procs ==>
      var pc := w.procs[p];
      && (pc.DeadRead? && pc.id == id ==> pc.at == letter.at && pc.count == letter.row.retryCount && pc.error == letter.row.lastError)
      && (pc.DeadBatch? && pc.id == id ==> pc.letter == letter)
  }

  lemma OwnWay(s: Shared, p: Pid, pc: Pc, c: Choice, id: EventId)
    requires !(pc.FailWrite? && pc.id == id && !c.fault.Refused?)
    ensures var pc' := StepPc(s, p, pc, c);
            && !(pc'.DeadRead? && pc'.id == id)
            && (pc'.DeadBatch? && pc'.id == id ==>
                  pc.DeadRead? && pc.id == id && id in s.t.outbox
                  && pc'.letter == DeadLetter(pc.at, DeadRow(s.t.outbox[id].body, pc.count, pc.error)))
  {
    if pc.DeadRead? {
      assert StepPc(s, p, pc, c) == if c.fault.Fine? then Proceed(s, p, pc, c) else Resume(pc.rest);
    } else {
      NoLetterOnError(pc);
      if !pc.FailWrite? && !pc.Publish? { NoLetterProceeds(s, p, pc, c); }
    }
  }

  lemma NoLetterOnError(pc: Pc)
    ensures !OnError(pc).DeadRead? && !OnError(pc).DeadBatch?
  {
  }

  lemma NoLetterProceeds(s: Shared, p: Pid, pc: Pc, c: Choice)
    requires !pc.FailWrite? && !pc.DeadRead?
    ensures !Proceed(s, p, pc, c).DeadRead? && !Proceed(s, p, pc, c).DeadBatch?
  {
  }

  lemma WayStep(w: World, e: Event, p: Pid, id: EventId, letter: DeadLetter)
    requires OnItsWay(w, p, id, letter) && Enabled(w, e) && !(Executes(w, e) && About(w.procs[e.p], id))
    requires id in w.s.t.outbox && w.s.t.outbox[id].body == letter.row.body
    ensures OnItsWay(Next(w, e), p, id, letter)
  {
    if e.Move? && e.p == p { OwnWay(w.s, p, w.procs[p], e.c, id); }
  }

  lemma {:induction false} WayThroughout(w: World, run: seq<Event>, p: Pid, id: EventId, letter: DeadLetter)
    requires OnItsWay(w, p, id, letter) && Legal(w, run) && Untouched(w, run, id)
    requires id in w.s.t.outbox && w.s.t.outbox[id].body == letter.row.body
    ensures OnItsWay(After(w, run), p, id, letter)
    decreases |run|
  {
    if run != [] {
      WayStep(w, run[0], p, id, letter);
      UntouchedStep(w, run[0], id);
      WayThroughout(Next(w, run[0]), run[1..], p, id, letter);
    }
  }

  // ---------- the round trip ----------

  /** Process p records a failure that quarantines the event. */
  predicate Quarantines(w: World, e: Event, id: EventId) {
    && e.Move? && e.p in w.procs && e.c.fault.Fine? && w.procs[e.p].FailWrite? && w.procs[e.p].id == id
    && w.procs[e.p].count >= w.s.cfg.policy.quarantineAfter
  }

  predicate WritesItsLetter(w: World, e: Event, id: EventId) {
    Executes(w, e) && w.procs[e.p].DeadBatch? && w.procs[e.p].id == id
  }

  predicate Replays(w: World, e: Event, id: EventId) {
    Executes(w, e) && w.procs[e.p].ReplayBatch? && w.procs[e.p].id == id
  }

  /** The event is pending, has no dead letter in either view, and no replay of it is under way. */
  ghost predicate CleanlyPending(w: World, id: EventId) {
    && id in w.s.t.outbox && w.s.t.outbox[id].state == Pending
    && Letter(w, id, None) && (forall k :: k in w.s.t.deadByTime ==> k.id != id)
  }

  /** The letter a quarantining failure is about to write. */
  function LetterOf(w: World, e: Event, id: EventId): DeadLetter
    requires Quarantines(w, e, id) && id in w.s.t.outbox
  {
    DeadLetter(e.c.now, DeadRow(w.s.t.outbox[id].body, w.procs[e.p].count, e.c.text))
  }

  lemma Recorded(w: World, e: Event, id: EventId)
    requires CleanlyPending(w, id) && Enabled(w, e) && Quarantines(w, e, id)
    ensures var w1 := Next(w, e);
            SameRows(w.s.t, w1.s.t, id) && Letter(w1, id, None) && OnItsWay(w1, e.p, id, LetterOf(w, e, id))
  {
    StepTables(w.s, e.p, w.procs[e.p], e.c);
    OutboxFrame(w.s, w.procs[e.p], e.c, id);
    LetterFrame(w.s, w.procs[e.p], e.c, id);
    LetterStays(w, e, id, None);
  }

  lemma LetterIn(w: World, e: Event, id: EventId)
    requires Letter(w, id, None) && Enabled(w, e) && WritesItsLetter(w, e, id)
    ensures var w' := Next(w, e); var letter := w.procs[e.p].letter;
            && SameOutbox(w.s.t, w'.s.t, id) && Letter(w', id, Some(letter))
            && w'.s.t.deadByTime == w.s.t.deadByTime[Slot(letter.at, id) := letter.row]
  {
    StepTables(w.s, e.p, w.procs[e.p], e.c);
    OutboxFrame(w.s, w.procs[e.p], e.c, id);
    forall q | q in Next(w, e).procs && Replaying(Next(w, e).procs[q], id) ensures false {
      if q == e.p { ReplayReads(w.s, q, w.procs[q], e.c, id); }
    }
  }

  /** From the failure to the letter: nothing of the event changed but its retry row and the one letter. */
  lemma Quarantined(w: World, e1: Event, run: seq<Event>, e2: Event, id: EventId)
    requires CleanlyPending(w, id) && Enabled(w, e1) && Quarantines(w, e1, id)
    requires Legal(Next(w, e1), run) && Untouched(Next(w, e1), run, id)
    requires var w2 := After(Next(w, e1), run); Enabled(w2, e2) && WritesItsLetter(w2, e2, id) && e2.p == e1.p
    ensures var w3 := Next(After(Next(w, e1), run), e2); var letter := LetterOf(w, e1, id);
            && SameOutbox(w.s.t, w3.s.t, id) && Letter(w3, id, Some(letter))
            && (forall k :: k in w3.s.t.deadByTime && k.id == id ==> k == Slot(letter.at, id))
  {
    var w1, letter := Next(w, e1), LetterOf(w, e1, id);
    Recorded(w, e1, id);
    UntouchedRun(w1, run, id);
    LetterThroughout(w1, run, id, None);
    WayThroughout(w1, run, e1.p, id, letter);
    LetterIn(After(w1, run), e2, id);
  }

  /** The outbox rows of the event are as before, its letters are gone, its count is the letter's, and it
      is eligible and claimable from now on. */
  ghost predicate Restored(t: Tables, t': Tables, id: EventId, count: nat, now: Time) {
    && SameOutbox(t, t', id) && id !in t'.deadById && (forall k :: k in t'.deadByTime ==> k.id != id)
    && id in t'.retry && t'.retry[id].retryCount == count
    && (forall u :: u >= now && u > EPOCH ==> Eligible(t', id, u) && LeaseFree(t', id, u))
  }

  /** The replay batch is about the content and time of the pending event. */
  predicate Faithful(t: Tables, id: EventId, letter: DeadLetter, occurredAt: Time) {
    && id in t.outbox && t.outbox[id].state == Pending && t.outbox[id].body == letter.row.body && t.outbox[id].occurredAt == occurredAt
    && Slot(occurredAt, id) in t.pending && t.pending[Slot(occurredAt, id)] == letter.row.body
  }

  lemma LetterOut(t: Tables, id: EventId, letter: DeadLetter, occurredAt: Time, now: Time)
    requires Faithful(t, id, letter, occurredAt)
    requires forall k :: k in t.deadByTime && k.id == id ==> k == Slot(letter.at, id)
    ensures Restored(t, ReplayLetter(t, id, letter, occurredAt, now), id, letter.row.retryCount, now)
  {
    var t' := ReplayLetter(t, id, letter, occurredAt, now);
    assert t'.outbox[id] == t.outbox[id];
    assert t'.pending == t.pending;
  }

  lemma OriginalFaithful(t: Tables, orig: map<EventId, EventRow>, id: EventId, letter: DeadLetter, occurredAt: Time)
    requires CopiesAgree(t.byId, t.outbox, orig) && PendingIndexed(t.outbox, t.pending, t.retry)
    requires id in orig && letter.row.body == orig[id].body && occurredAt == orig[id].occurredAt && t.outbox[id].state == Pending
    ensures Faithful(t, id, letter, occurredAt)
  {
    assert t.outbox[id].occurredAt == occurredAt;
    assert Slot(t.outbox[id].occurredAt, id) in t.pending;
  }

  lemma ReplayLocal(s: Shared, p: Pid, pc: Pc)
    requires PcInv(s, p, pc) && pc.ReplayBatch?
    ensures pc.id in s.h.orig && pc.letter.row.body == s.h.orig[pc.id].body && pc.occurredAt == s.h.orig[pc.id].occurredAt
  {
  }

  lemma ReplayFaithful(s: Shared, p: Pid, pc: Pc)
    requires CopiesAgree(s.t.byId, s.t.outbox, s.h.orig) && PendingIndexed(s.t.outbox, s.t.pending, s.t.retry)
    requires PcInv(s, p, pc) && pc.ReplayBatch? && pc.id in s.t.outbox && s.t.outbox[pc.id].state == Pending
    ensures Faithful(s.t, pc.id, pc.letter, pc.occurredAt)
  {
    ReplayLocal(s, p, pc);
    OriginalFaithful(s.t, s.h.orig, pc.id, pc.letter, pc.occurredAt);
  }

  lemma ReplayEffect(s: Shared, pc: Pc, c: Choice)
    requires pc.ReplayBatch?
    ensures Effect(s, pc, c) == ReplayLetter(s.t, pc.id, pc.letter, pc.occurredAt, pc.now)
  {
  }

  lemma ReplayRestores(w: World, e: Event, id: EventId, letter: DeadLetter)
    requires Inv(w) && Enabled(w, e) && Replays(w, e, id) && Letter(w, id, Some(letter))
    requires id in w.s.t.outbox && w.s.t.outbox[id].state == Pending
    requires forall k :: k in w.s.t.deadByTime && k.id == id ==> k == Slot(letter.at, id)
    ensures Restored(w.s.t, Next(w, e).s.t, id, letter.row.retryCount, w.procs[e.p].now)
  {
    var pc := w.procs[e.p];
    ReplayFaithful(w.s, e.p, pc);
    ReplayStep(w, e, id, letter);
  }

  lemma ReplayStep(w: World, e: Event, id: EventId, letter: DeadLetter)
    requires Enabled(w, e) && Replays(w, e, id) && Letter(w, id, Some(letter))
    requires Faithful(w.s.t, id, w.procs[e.p].letter, w.procs[e.p].occurredAt)
    requires forall k :: k in w.s.t.deadByTime && k.id == id ==> k == Slot(letter.at, id)
    ensures Restored(w.s.t, Next(w, e).s.t, id, letter.row.retryCount, w.procs[e.p].now)
  {
    var pc := w.procs[e.p];
    assert Replaying(pc, id);
    StepTables(w.s, e.p, pc, e.c);
    ReplayEffect(w.s, pc, e.c);
    LetterOut(w.s.t, id, letter, pc.occurredAt, pc.now);
  }

  /** A pending event without dead letter is quarantined by a failure, and later replayed. No other
      statement in between writes a row of this event; anything may happen to other events, and between
      the statements of either operation. Then its outbox row, its index rows and both dead-letter views
      are as they were before, the retry count is kept, and it is eligible and claimable at once. */
  lemma RoundTrip(w: World, e1: Event, run1: seq<Event>, e2: Event, run2: seq<Event>, e3: Event, id: EventId)
    requires Inv(w) && CleanlyPending(w, id) && Enabled(w, e1) && Quarantines(w, e1, id)
    requires Legal(Next(w, e1), run1) && Untouched(Next(w, e1), run1, id)
    requires var w2 := After(Next(w, e1), run1); Enabled(w2, e2) && WritesItsLetter(w2, e2, id) && e2.p == e1.p
    requires var w3 := Next(After(Next(w, e1), run1), e2); Legal(w3, run2) && Untouched(w3, run2, id)
    requires var w4 := After(Next(After(Next(w, e1), run1), e2), run2); Enabled(w4, e3) && Replays(w4, e3, id)
    ensures var w4 := After(Next(After(Next(w, e1), run1), e2), run2); var t' := Next(w4, e3).s.t;
            && SameRows(w.s.t, t', id)
            && id in t'.retry && t'.retry[id].retryCount == w.procs[e1.p].count
            && (forall u :: u >= w4.procs[e3.p].now && u > EPOCH ==> Eligible(t', id, u) && LeaseFree(t', id, u))
  {
    var w1 := Next(w, e1);
    var w3 := Next(After(w1, run1), e2);
    var letter := LetterOf(w, e1, id);
    Quarantined(w, e1, run1, e2, id);
    UntouchedRun(w3, run2, id);
    LetterThroughout(w3, run2, id, Some(letter));
    InvBeforeReplay(w, e1, run1, e2, run2);
    ReplayRestores(After(w3, run2), e3, id, letter);
  }

  lemma InvBeforeReplay(w: World, e1: Event, run1: seq<Event>, e2: Event, run2: seq<Event>)
    requires Inv(w) && Enabled(w, e1) && Legal(Next(w, e1), run1) && Enabled(After(Next(w, e1), run1), e2)
    requires Legal(Next(After(Next(w, e1), run1), e2), run2)
    ensures Inv(After(Next(After(Next(w, e1), run1), e2), run2))
  {
    NextKeeps(w, e1);
    RunKeeps(Next(w, e1), run1);
    NextKeeps(After(Next(w, e1), run1), e2);
    RunKeeps(Next(After(Next(w, e1), run1), e2), run2);
  }

  // ---------- failures after a replay ----------

  /** A failure of the event is recorded. */
  predicate Records(w: World, e: Event, id: EventId) {
    Executes(w, e) && w.procs[e.p].FailWrite? && w.procs[e.p].id == id
  }

  predicate Unmarked(w: World, run: seq<Event>, id: EventId)
    requires Legal(w, run)
    decreases |run|
  {
    run == [] || (!Marks(w, run[0], id) && Unmarked(Next(w, run[0]), run[1..], id))
  }

  /** Every failure of the event that is recorded before a published mark quarantines it. */
  ghost predicate AlwaysQuarantines(w: World, id: EventId) {
    forall run, e :: Legal(w, run) && Unmarked(w, run, id) && Enabled(After(w, run), e) && Records(After(w, run), e, id) ==>
      var t' := Next(After(w, run), e).s.t; id in t'.retry && t'.retry[id].quarantined
  }

  /** No failure of the event is about to be recorded with a count below the limit. */
  ghost predicate NoLowCount(w: World, id: EventId) {
    forall p :: p in w.procs && w.procs[p].FailWrite? && w.procs[p].id == id ==> w.procs[p].count >= w.s.cfg.policy.quarantineAfter
  }

  predicate CountHigh(t: Tables, id: EventId, limit: int) {
    id in t.retry && t.retry[id].retryCount >= limit
  }

  lemma EffectCount(s: Shared, p: Pid, pc: Pc, c: Choice, id: EventId)
    requires CountHigh(s.t, id, s.cfg.policy.quarantineAfter) && PcInv(s, p, pc)
    requires pc.AppendBatch? ==> pc.newId != id
    requires pc.MarkBatch? ==> pc.id != id
    requires pc.FailWrite? && pc.id == id ==> pc.count >= s.cfg.policy.quarantineAfter
    ensures CountHigh(Effect(s, pc, c), id, s.cfg.policy.quarantineAfter)
  {
  }

  lemma CountRead(s: Shared, p: Pid, pc: Pc, c: Choice, id: EventId)
    requires CountHigh(s.t, id, s.cfg.policy.quarantineAfter)
    requires pc.FailWrite? && pc.id == id ==> pc.count >= s.cfg.policy.quarantineAfter
    ensures var pc' := StepPc(s, p, pc, c); pc'.FailWrite? && pc'.id == id ==> pc'.count >= s.cfg.policy.quarantineAfter
  {
  }

  /** The count has reached the limit, and no lower one is on its way. */
  ghost predicate Steady(w: World, id: EventId) {
    CountHigh(w.s.t, id, w.s.cfg.policy.quarantineAfter) && NoLowCount(w, id)
  }

  lemma CountKept(w: World, e: Event, id: EventId)
    requires SharedInv(w.s) && Enabled(w, e) && e.Move? && PcInv(w.s, e.p, w.procs[e.p]) && !Marks(w, e, id) && Steady(w, id)
    ensures CountHigh(Next(w, e).s.t, id, w.s.cfg.policy.quarantineAfter)
  {
    var pc := w.procs[e.p];
    StepTables(w.s, e.p, pc, e.c);
    if !pc.Publish? && !e.c.fault.Refused? {
      NotRewritten(w.s, e.p, pc, id);
      EffectCount(w.s, e.p, pc, e.c, id);
    }
  }

  lemma LowNext(w: World, e: Event, id: EventId)
    requires Enabled(w, e) && Steady(w, id)
    ensures NoLowCount(Next(w, e), id)
  {
    if e.Move? { CountRead(w.s, e.p, w.procs[e.p], e.c, id); }
  }

  lemma CountNext(w: World, e: Event, id: EventId)
    requires Inv(w) && Enabled(w, e) && !Marks(w, e, id) && Steady(w, id)
    ensures CountHigh(Next(w, e).s.t, id, w.s.cfg.policy.quarantineAfter)
  {
    if e.Move? { CountKept(w, e, id); }
  }

  lemma ConfigStays(w: World, e: Event)
    requires Enabled(w, e)
    ensures Next(w, e).s.cfg == w.s.cfg
  {
  }

  lemma {:induction false} SteadyThroughout(w: World, run: seq<Event>, id: EventId)
    requires Inv(w) && Legal(w, run) && Unmarked(w, run, id) && Steady(w, id)
    ensures Steady(After(w, run), id)
    decreases |run|
  {
    if run != [] {
      CountNext(w, run[0], id);
      LowNext(w, run[0], id);
      ConfigStays(w, run[0]);
      NextKeeps(w, run[0]);
      SteadyThroughout(Next(w, run[0]), run[1..], id);
    }
  }

  lemma RecordedFlag(w: World, e: Event, id: EventId)
    requires Enabled(w, e) && Records(w, e, id)
    ensures var t' := Next(w, e).s.t;
            id in t'.retry && (t'.retry[id].quarantined <==> w.procs[e.p].count >= w.s.cfg.policy.quarantineAfter)
  {
    StepTables(w.s, e.p, w.procs[e.p], e.c);
  }

  /** Once the retry count has reached the limit, as a replay leaves it, every failure recorded before a
      published mark quarantines the event again, if and only if no failure that read a lower count
      earlier is still waiting to be recorded. */
  lemma FailsAgainExact(w: World, id: EventId)
    requires Inv(w) && CountHigh(w.s.t, id, w.s.cfg.policy.quarantineAfter)
    ensures AlwaysQuarantines(w, id) <==> NoLowCount(w, id)
  {
    if NoLowCount(w, id) {
      forall run, e | Legal(w, run) && Unmarked(w, run, id) && Enabled(After(w, run), e) && Records(After(w, run), e, id)
        ensures var t' := Next(After(w, run), e).s.t; id in t'.retry && t'.retry[id].quarantined
      {
        SteadyThroughout(w, run, id);
        RecordedFlag(After(w, run), e, id);
      }
    } else {
      LowCountShows(w, id);
    }
  }

  lemma LowCountShows(w: World, id: EventId)
    requires !NoLowCount(w, id)
    ensures !AlwaysQuarantines(w, id)
  {
    var p :| p in w.procs && w.procs[p].FailWrite? && w.procs[p].id == id && w.procs[p].count < w.s.cfg.policy.quarantineAfter;
    var e := Move(p, At(0));
    RecordedFlag(w, e, id);
    assert After(w, []) == w;
    assert Legal(w, []) && Unmarked(w, [], id) && Enabled(After(w, []), e) && Records(After(w, []), e, id);
  }

  /** A replay leaves such a count. */
  lemma ReplayCounts(w: World, e: Event, id: EventId)
    requires Inv(w) && Enabled(w, e) && Replays(w, e, id)
    ensures CountHigh(Next(w, e).s.t, id, w.s.cfg.policy.quarantineAfter)
  {
    assert PcInv(w.s, e.p, w.procs[e.p]);
    StepTables(w.s, e.p, w.procs[e.p], e.c);
  }
}
