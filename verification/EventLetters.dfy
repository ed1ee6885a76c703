/** The dead letters of one event under interleaving: when its two views agree. */
module EventLetters {
  import opened Schema
  import opened Statements
  import opened Protocol
  import opened Invariant
  import opened Moves
  import opened Guarantees
  import opened Operations
  import opened Cleanup

  /** Both views hold the same letter of the event, or none. */
  ghost predicate OneLetter(t: Tables, id: EventId) {
    && (forall k :: k in t.deadByTime && k.id == id ==> id in t.deadById && t.deadById[id] == DeadLetter(k.at, t.deadByTime[k]))
    && (id in t.deadById ==> Slot(t.deadById[id].at, id) in t.deadByTime)
  }

  /** The letters of the event are as before, in both views. */
  ghost predicate SameLetters(t: Tables, t': Tables, id: EventId) {
    && (id in t'.deadById <==> id in t.deadById) && (id in t.deadById ==> t'.deadById[id] == t.deadById[id])
    && (forall k: Slot :: k.id == id ==> (k in t'.deadByTime <==> k in t.deadByTime))
    && (forall k: Slot :: k.id == id && k in t.deadByTime && k in t'.deadByTime ==> t'.deadByTime[k] == t.deadByTime[k])
  }

  /** The statement writes or deletes a letter of the event. */
  predicate WritesLetter(pc: Pc, id: EventId) {
    || ((pc.DeadBatch? || pc.ReplayBatch?) && pc.id == id)
    || (pc.CleanDead? && pc.slots != [] && pc.slots[0].id == id)
  }

  /** When the letter the statement is about was written. */
  function LetterTime(pc: Pc): Time
    requires pc.DeadBatch? || pc.ReplayBatch? || (pc.CleanDead? && pc.slots != [])
  {
    if pc.CleanDead? then pc.slots[0].at else pc.letter.at
  }

  /** A statement about one letter of the event executes while the by-id view holds another one. */
  predicate Misaligned(w: World, e: Event, id: EventId) {
    && Executes(w, e) && WritesLetter(w.procs[e.p], id)
    && id in w.s.t.deadById && w.s.t.deadById[id].at != LetterTime(w.procs[e.p])
  }

  lemma NoLetterStatement(s: Shared, pc: Pc, c: Choice)
    requires !pc.DeadBatch? && !pc.ReplayBatch? && !pc.CleanDead?
    ensures Effect(s, pc, c).deadByTime == s.t.deadByTime && Effect(s, pc, c).deadById == s.t.deadById
  {
  }

  lemma LetterFrame(s: Shared, pc: Pc, c: Choice, id: EventId)
    requires !WritesLetter(pc, id)
    ensures SameLetters(s.t, Effect(s, pc, c), id)
  {
    if pc.DeadBatch? {
      assert Effect(s, pc, c) == WriteDeadLetter(s.t, pc.id, pc.letter);
    } else if pc.ReplayBatch? {
      assert Effect(s, pc, c).deadByTime == s.t.deadByTime - {Slot(pc.letter.at, pc.id)};
    } else if !pc.CleanDead? {
      NoLetterStatement(s, pc, c);
    }
  }

  lemma WriteExact(t: Tables, id: EventId, letter: DeadLetter)
    requires OneLetter(t, id)
    ensures OneLetter(WriteDeadLetter(t, id, letter), id) <==> (id in t.deadById ==> t.deadById[id].at == letter.at)
  {
    var t' := WriteDeadLetter(t, id, letter);
    if id in t.deadById && t.deadById[id].at != letter.at {
      assert Slot(t.deadById[id].at, id) in t'.deadByTime;
    }
  }

  lemma RemoveExact(t: Tables, t': Tables, slot: Slot)
    requires OneLetter(t, slot.id) && t'.deadByTime == t.deadByTime - {slot} && t'.deadById == t.deadById - {slot.id}
    ensures OneLetter(t', slot.id) <==> (slot.id in t.deadById ==> t.deadById[slot.id].at == slot.at)
  {
    if slot.id in t.deadById && t.deadById[slot.id].at != slot.at {
      assert Slot(t.deadById[slot.id].at, slot.id) in t'.deadByTime;
    }
  }

  lemma EffectLetters(s: Shared, pc: Pc, c: Choice, id: EventId)
    requires OneLetter(s.t, id) && WritesLetter(pc, id)
    ensures OneLetter(Effect(s, pc, c), id) <==> (id in s.t.deadById ==> s.t.deadById[id].at == LetterTime(pc))
  {
    match pc
    case DeadBatch(_, letter, _) => WriteExact(s.t, id, letter);
    case ReplayBatch(_, letter, _, _) => RemoveExact(s.t, Effect(s, pc, c), Slot(letter.at, id));
    case CleanDead(slots) => RemoveExact(s.t, Effect(s, pc, c), slots[0]);
  }

  /** The views go on agreeing on an event exactly unless a misaligned statement executes. */
  lemma LettersExact(w: World, e: Event, id: EventId)
    requires Enabled(w, e) && OneLetter(w.s.t, id)
    ensures OneLetter(Next(w, e).s.t, id) <==> !Misaligned(w, e, id)
  {
    if e.Move? {
      var pc := w.procs[e.p];
      StepTables(w.s, e.p, pc, e.c);
      if WritesLetter(pc, id) {
        EffectLetters(w.s, pc, e.c, id);
      } else {
        LetterFrame(w.s, pc, e.c, id);
      }
    }
  }

  // ---------- operations on one event that do not interleave ----------

  /** The process is inside an operation on the dead letters of the event: quarantining, replaying or cleaning it. */
  predicate Inside(pc: Pc, id: EventId) {
    || ((pc.DeadRead? || pc.DeadBatch? || pc.ReplayFind? || pc.ReplayBatch?) && pc.id == id)
    || (pc.CleanDead? && exists i :: 0 <= i < |pc.slots| && pc.slots[i].id == id)
  }

  ghost predicate OneInside(w: World, id: EventId) {
    forall p, q :: p in w.procs && q in w.procs && Inside(w.procs[p], id) && Inside(w.procs[q], id) ==> p == q
  }

  /** A failure that quarantines the event is recorded while it still has a dead letter. */
  predicate Doubles(w: World, e: Event, id: EventId) {
    && Executes(w, e) && w.procs[e.p].FailWrite? && w.procs[e.p].id == id
    && w.procs[e.p].count >= w.s.cfg.policy.quarantineAfter && id in w.s.t.deadById
  }

  /** Operations on the dead letters of the event do not interleave; operations on other events may. */
  ghost predicate Exclusive(w: World, run: seq<Event>, id: EventId)
    requires Legal(w, run)
    decreases |run|
  {
    OneInside(w, id) && (run == [] || (!Doubles(w, run[0], id) && Exclusive(Next(w, run[0]), run[1..], id)))
  }

  /** What a process inside an operation on the event knows about its letters. */
  ghost predicate KnowsLetter(t: Tables, pc: Pc, id: EventId) {
    && ((pc.DeadRead? || pc.DeadBatch?) && pc.id == id ==> id !in t.deadById)
    && ((pc.ReplayFind? || pc.ReplayBatch?) && pc.id == id ==> id in t.deadById && t.deadById[id] == pc.letter)
    && (pc.CleanDead? ==> DistinctRows(pc.slots) && forall k :: k in pc.slots && k.id == id ==> k in t.deadByTime)
  }

  ghost predicate LetterInv(w: World, id: EventId) {
    OneLetter(w.s.t, id) && forall p :: p in w.procs ==> KnowsLetter(w.s.t, w.procs[p], id)
  }

  lemma NotMisaligned(w: World, e: Event, id: EventId)
    requires LetterInv(w, id) && Enabled(w, e)
    ensures !Misaligned(w, e, id)
  {
    if Executes(w, e) && WritesLetter(w.procs[e.p], id) {
      var pc := w.procs[e.p];
      assert KnowsLetter(w.s.t, pc, id);
      if pc.CleanDead? { assert pc.slots[0] in pc.slots; }
    }
  }

  lemma KnowsFrame(t: Tables, t': Tables, pc: Pc, id: EventId)
    requires KnowsLetter(t, pc, id) && (SameLetters(t, t', id) || !Inside(pc, id))
    ensures KnowsLetter(t', pc, id)
  {
  }

  lemma WriterInside(pc: Pc, id: EventId)
    requires WritesLetter(pc, id)
    ensures Inside(pc, id)
  {
    if pc.CleanDead? { assert pc.slots[0].id == id; }
  }

  lemma OthersKnow(w: World, e: Event, id: EventId, q: Pid)
    requires LetterInv(w, id) && OneInside(w, id) && Enabled(w, e) && e.Move? && q in w.procs && q != e.p
    ensures KnowsLetter(Next(w, e).s.t, w.procs[q], id)
  {
    var pc := w.procs[e.p];
    assert KnowsLetter(w.s.t, w.procs[q], id);
    StepTables(w.s, e.p, pc, e.c);
    if WritesLetter(pc, id) {
      WriterInside(pc, id);
    } else {
      LetterFrame(w.s, pc, e.c, id);
    }
    KnowsFrame(w.s.t, Next(w, e).s.t, w.procs[q], id);
  }

  /** The rest of a cleanup list after its head is deleted. */
  lemma CleanTail(t: Tables, slots: seq<Slot>, id: EventId)
    requires OneLetter(t, id) && slots != [] && KnowsLetter(t, CleanDead(slots), id)
    ensures KnowsLetter(t, CleanDead(slots[1..]), id) && KnowsLetter(DeleteDeadLetter(t, slots[0]), CleanDead(slots[1..]), id)
  {
    assert slots[0] in slots;
    forall k | k in slots[1..] && k.id == id ensures k in t.deadByTime && k != slots[0] {
      assert k in slots;
    }
  }

  lemma CleanMoves(s: Shared, p: Pid, pc: Pc, c: Choice, id: EventId)
    requires OneLetter(s.t, id) && KnowsLetter(s.t, pc, id) && pc.CleanDead?
    ensures KnowsLetter(Step(s, p, pc, c).t, StepPc(s, p, pc, c), id)
  {
    StepTables(s, p, pc, c);
    if pc.slots != [] {
      CleanTail(s.t, pc.slots, id);
    }
  }

  lemma FetchMoves(s: Shared, p: Pid, pc: Pc, c: Choice, id: EventId)
    requires pc.CleanDeadFetch?
    ensures KnowsLetter(Step(s, p, pc, c).t, StepPc(s, p, pc, c), id)
  {
    StepTables(s, p, pc, c);
    ExpiredLettersListed(s.t, pc.deadCutoff, pc.limit);
  }

  lemma FailMoves(s: Shared, p: Pid, pc: Pc, c: Choice, id: EventId)
    requires KnowsLetter(s.t, pc, id) && (pc.FailWrite? || pc.DeadRead? || pc.DeadBatch?)
    requires pc.FailWrite? && pc.id == id && pc.count >= s.cfg.policy.quarantineAfter && !c.fault.Refused? ==> id !in s.t.deadById
    ensures KnowsLetter(Step(s, p, pc, c).t, StepPc(s, p, pc, c), id)
  {
    StepTables(s, p, pc, c);
    if !WritesLetter(pc, id) { LetterFrame(s, pc, c, id); }
  }

  lemma ReplayMoves(s: Shared, p: Pid, pc: Pc, c: Choice, id: EventId)
    requires KnowsLetter(s.t, pc, id) && (pc.ReplayRead? || pc.ReplayFind? || pc.ReplayBatch?)
    ensures KnowsLetter(Step(s, p, pc, c).t, StepPc(s, p, pc, c), id)
  {
    StepTables(s, p, pc, c);
    if !WritesLetter(pc, id) { LetterFrame(s, pc, c, id); }
  }

  predicate AboutLetters(pc: Pc) {
    pc.DeadRead? || pc.DeadBatch? || pc.ReplayFind? || pc.ReplayBatch? || pc.CleanDead?
  }

  /** Every other step leads to a state that says nothing about dead letters. */
  lemma SilentMoves(s: Shared, p: Pid, pc: Pc, c: Choice)
    requires !pc.FailWrite? && !pc.ReplayRead? && !pc.CleanDeadFetch? && !AboutLetters(pc)
    ensures !AboutLetters(StepPc(s, p, pc, c))
  {
  }

  lemma OwnKnows(w: World, e: Event, id: EventId)
    requires LetterInv(w, id) && Enabled(w, e) && e.Move? && !Doubles(w, e, id)
    ensures KnowsLetter(Next(w, e).s.t, Next(w, e).procs[e.p], id)
  {
    var pc := w.procs[e.p];
    assert KnowsLetter(w.s.t, pc, id);
    if pc.CleanDead? {
      CleanMoves(w.s, e.p, pc, e.c, id);
    } else if pc.CleanDeadFetch? {
      FetchMoves(w.s, e.p, pc, e.c, id);
    } else if pc.FailWrite? || pc.DeadRead? || pc.DeadBatch? {
      FailMoves(w.s, e.p, pc, e.c, id);
    } else if pc.ReplayRead? || pc.ReplayFind? || pc.ReplayBatch? {
      ReplayMoves(w.s, e.p, pc, e.c, id);
    } else {
      SilentMoves(w.s, e.p, pc, e.c);
    }
  }

  lemma LetterNext(w: World, e: Event, id: EventId)
    requires LetterInv(w, id) && OneInside(w, id) && Enabled(w, e) && !Doubles(w, e, id)
    ensures LetterInv(Next(w, e), id)
  {
    NotMisaligned(w, e, id);
    LettersExact(w, e, id);
    var w' := Next(w, e);
    forall q | q in w'.procs ensures KnowsLetter(w'.s.t, w'.procs[q], id) {
      if e.Move? {
        if q == e.p { OwnKnows(w, e, id); } else { OthersKnow(w, e, id, q); }
      } else if q != e.p {
        assert KnowsLetter(w.s.t, w.procs[q], id);
      }
    }
  }

  lemma {:induction false} LettersAgree(w: World, run: seq<Event>, id: EventId)
    requires LetterInv(w, id) && Legal(w, run) && Exclusive(w, run, id)
    ensures LetterInv(After(w, run), id)
    decreases |run|
  {
    if run != [] {
      LetterNext(w, run[0], id);
      LettersAgree(Next(w, run[0]), run[1..], id);
    }
  }

  /** In every run in which the operations on the dead letters of an event do not interleave with each
      other, and none of its failures quarantines it while it still has a letter, the two views agree on
      that event in every world, however operations on other events interleave. */
  lemma ViewsAgreeOn(cfg: Config, run: seq<Event>, id: EventId)
    requires Legal(Initial(cfg), run) && Exclusive(Initial(cfg), run, id)
    ensures OneLetter(After(Initial(cfg), run).s.t, id)
  {
    LettersAgree(Initial(cfg), run, id);
  }
}
