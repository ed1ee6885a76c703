/** A process of the protocol that runs undisturbed does exactly what the store operation does, whatever
    faults its statements meet: the protocol is the operations cut at their statements. */
module Solo {
  import opened Schema
  import opened Statements
  import opened Protocol
  import opened Operations
  import opened Moves

  /** The faults of some moves, in order. */
  function Faults(cs: seq<Choice>): nat -> Fault {
    (i: nat) => if i < |cs| then cs[i].fault else Fine
  }

  /** The shared state and the process after p alone moved, as long as it stayed inside its operation. */
  function Within(s: Shared, p: Pid, pc: Pc, cs: seq<Choice>, inside: Pc -> bool): (Shared, Pc)
    decreases |cs|
  {
    if cs == [] || !inside(pc) then (s, pc) else Within(Step(s, p, pc, cs[0]), p, StepPc(s, p, pc, cs[0]), cs[1..], inside)
  }

  lemma Goes(s: Shared, p: Pid, pc: Pc, c: Choice, cs: seq<Choice>, inside: Pc -> bool)
    requires inside(pc)
    ensures Within(s, p, pc, [c] + cs, inside) == Within(Step(s, p, pc, c), p, StepPc(s, p, pc, c), cs, inside)
  {
    assert ([c] + cs)[1..] == cs;
  }

  lemma Last(s: Shared, p: Pid, pc: Pc, c: Choice, inside: Pc -> bool)
    requires inside(pc)
    ensures Within(s, p, pc, [c], inside) == (Step(s, p, pc, c), StepPc(s, p, pc, c))
  {
    assert [c][1..] == [];
  }

  // ---------- marking ----------

  predicate Marking(pc: Pc) {
    pc.MarkRead? || pc.MarkBatch?
  }

  lemma MarkReads(s: Shared, p: Pid, id: EventId, brokerId: string, rest: seq<Record>, c: Choice)
    ensures Step(s, p, MarkRead(id, brokerId, rest), c) == s
    ensures StepPc(s, p, MarkRead(id, brokerId, rest), c) ==
            if c.fault.Fine? && id in s.t.outbox then MarkBatch(id, brokerId, s.t.outbox[id].occurredAt, rest) else Resume(rest)
  {
  }

  lemma MarkWrites(s: Shared, p: Pid, id: EventId, brokerId: string, at: Time, rest: seq<Record>, c: Choice)
    ensures Step(s, p, MarkBatch(id, brokerId, at, rest), c).t == Left(s.t, MarkPublished(s.t, id, at, brokerId, c.now), c.fault)
    ensures StepPc(s, p, MarkBatch(id, brokerId, at, rest), c) == Resume(rest)
  {
  }

  lemma SoloMark(s: Shared, p: Pid, id: EventId, brokerId: string, rest: seq<Record>, c1: Choice, c2: Choice)
    ensures var (s', pc') := Within(s, p, MarkRead(id, brokerId, rest), [c1, c2], Marking);
            s'.t == MarkedUnder(s.t, id, brokerId, c2.now, Faults([c1, c2])).0 && pc' == Resume(rest)
  {
    var pc := MarkRead(id, brokerId, rest);
    assert [c1, c2] == [c1] + [c2];
    Goes(s, p, pc, c1, [c2], Marking);
    MarkReads(s, p, id, brokerId, rest, c1);
    if c1.fault.Fine? && id in s.t.outbox {
      MarkWrites(s, p, id, brokerId, s.t.outbox[id].occurredAt, rest, c2);
      Last(s, p, MarkBatch(id, brokerId, s.t.outbox[id].occurredAt, rest), c2, Marking);
    }
  }

  // ---------- recording a failure ----------

  predicate Failing(pc: Pc) {
    pc.FailRead? || pc.FailWrite? || pc.DeadRead? || pc.DeadBatch?
  }

  function Counted(t: Tables, id: EventId, token: Token, rest: seq<Record>): Pc {
    FailWrite(id, token, RetryCountOf(t, id) + 1, if id in t.retry then t.retry[id].firstFailed else None, rest)
  }

  /** Where the process goes once the count is written. */
  function AfterCount(t: Tables, id: EventId, limit: int, rest: seq<Record>, c: Choice): Pc {
    var count := RetryCountOf(t, id) + 1;
    if c.fault.Fine? && count >= limit then DeadRead(id, count, c.now, c.text, rest) else Resume(rest)
  }

  /** The tables once the count is written. */
  function WithCount(t: Tables, id: EventId, limit: int, next: Time, c: Choice): Tables {
    var count := RetryCountOf(t, id) + 1;
    Left(t, WriteFailure(t, id, count, next, c.text, count >= limit, c.now, FirstFailure(t, id, c.now)), c.fault)
  }

  lemma FailureRead(s: Shared, p: Pid, id: EventId, token: Token, rest: seq<Record>, c: Choice)
    ensures Step(s, p, FailRead(id, token, rest), c) == s
    ensures StepPc(s, p, FailRead(id, token, rest), c) == if c.fault.Fine? then Counted(s.t, id, token, rest) else Resume(rest)
  {
  }

  lemma FirstKept(t: Tables, id: EventId, now: Time)
    ensures var first := if id in t.retry then t.retry[id].firstFailed else None;
            (if first.Some? then first.value else now) == FirstFailure(t, id, now)
  {
  }

  lemma WriteEffect(s: Shared, pc: Pc, c: Choice)
    requires pc.FailWrite?
    ensures Effect(s, pc, c) == WriteFailure(s.t, pc.id, pc.count, NextAttempt(s.cfg, pc.count, c), c.text,
                                             pc.count >= s.cfg.policy.quarantineAfter, c.now, if pc.first.Some? then pc.first.value else c.now)
  {
  }

  lemma FailureWrite(s: Shared, p: Pid, id: EventId, token: Token, rest: seq<Record>, c: Choice)
    ensures var pc, limit := Counted(s.t, id, token, rest), s.cfg.policy.quarantineAfter;
            && Step(s, p, pc, c).t == WithCount(s.t, id, limit, NextDue(s.t, id, s.cfg.policy, c.draw, c.now), c)
            && StepPc(s, p, pc, c) == AfterCount(s.t, id, limit, rest, c)
  {
    FirstKept(s.t, id, c.now);
    WriteEffect(s, Counted(s.t, id, token, rest), c);
    DueAlike(s, id, c);
    StepTables(s, p, Counted(s.t, id, token, rest), c);
  }

  lemma DeadReads(s: Shared, p: Pid, id: EventId, count: nat, at: Time, error: string, rest: seq<Record>, c: Choice)
    ensures var pc := DeadRead(id, count, at, error, rest);
            && Step(s, p, pc, c) == s
            && StepPc(s, p, pc, c) == if c.fault.Fine? && id in s.t.outbox
                                      then DeadBatch(id, DeadLetter(at, DeadRow(s.t.outbox[id].body, count, error)), rest) else Resume(rest)
  {
  }

  lemma DeadWrites(s: Shared, p: Pid, id: EventId, letter: DeadLetter, rest: seq<Record>, c: Choice)
    ensures Step(s, p, DeadBatch(id, letter, rest), c).t == Left(s.t, WriteDeadLetter(s.t, id, letter), c.fault)
    ensures StepPc(s, p, DeadBatch(id, letter, rest), c) == Resume(rest)
  {
  }

  lemma FailureDead(s: Shared, p: Pid, id: EventId, count: nat, at: Time, error: string, rest: seq<Record>, c3: Choice, c4: Choice, f: nat -> Fault)
    requires f(2) == c3.fault && f(3) == c4.fault
    ensures var (s', pc') := Within(s, p, DeadRead(id, count, at, error, rest), [c3, c4], Failing);
            s'.t == LetteredUnder(s.t, id, count, error, at, f).0 && pc' == Resume(rest)
  {
    assert [c3, c4] == [c3] + [c4];
    Goes(s, p, DeadRead(id, count, at, error, rest), c3, [c4], Failing);
    DeadReads(s, p, id, count, at, error, rest, c3);
    if c3.fault.Fine? && id in s.t.outbox {
      var letter := DeadLetter(at, DeadRow(s.t.outbox[id].body, count, error));
      Last(s, p, DeadBatch(id, letter, rest), c4, Failing);
      DeadWrites(s, p, id, letter, rest, c4);
    }
  }

  /** After the count was written: from the limit on the dead letter follows. */
  lemma FailureRest(t: Tables, s1: Shared, p: Pid, id: EventId, limit: int, next: Time, rest: seq<Record>, c2: Choice, c3: Choice, c4: Choice, f: nat -> Fault)
    requires f(0).Fine? && f(1) == c2.fault && f(2) == c3.fault && f(3) == c4.fault && s1.t == WithCount(t, id, limit, next, c2)
    ensures var out := Within(s1, p, AfterCount(t, id, limit, rest, c2), [c3, c4], Failing);
            out.0.t == FailedUntilUnder(t, id, c2.text, limit, next, c2.now, f).0 && out.1 == Resume(rest)
  {
    var count := RetryCountOf(t, id) + 1;
    if c2.fault.Fine? && count >= limit {
      FailureDead(s1, p, id, count, c2.now, c2.text, rest, c3, c4, f);
    }
  }

  lemma DueAlike(s: Shared, id: EventId, c: Choice)
    ensures NextAttempt(s.cfg, RetryCountOf(s.t, id) + 1, c) == NextDue(s.t, id, s.cfg.policy, c.draw, c.now)
  {
  }

  lemma CountWritten(s: Shared, p: Pid, id: EventId, token: Token, rest: seq<Record>, c: Choice, cs: seq<Choice>) returns (s1: Shared)
    ensures var limit := s.cfg.policy.quarantineAfter;
            && s1.t == WithCount(s.t, id, limit, NextDue(s.t, id, s.cfg.policy, c.draw, c.now), c)
            && Within(s, p, Counted(s.t, id, token, rest), [c] + cs, Failing) == Within(s1, p, AfterCount(s.t, id, limit, rest, c), cs, Failing)
  {
    var pc := Counted(s.t, id, token, rest);
    s1 := Step(s, p, pc, c);
    FailureWrite(s, p, id, token, rest, c);
    Goes(s, p, pc, c, cs, Failing);
  }

  lemma FailureCounted(s: Shared, p: Pid, id: EventId, token: Token, rest: seq<Record>, c2: Choice, c3: Choice, c4: Choice, f: nat -> Fault, next: Time)
    requires f(0).Fine? && f(1) == c2.fault && f(2) == c3.fault && f(3) == c4.fault && next == NextDue(s.t, id, s.cfg.policy, c2.draw, c2.now)
    ensures var out := Within(s, p, Counted(s.t, id, token, rest), [c2] + [c3, c4], Failing);
            out.0.t == FailedUntilUnder(s.t, id, c2.text, s.cfg.policy.quarantineAfter, next, c2.now, f).0 && out.1 == Resume(rest)
  {
    var s1 := CountWritten(s, p, id, token, rest, c2, [c3, c4]);
    FailureRest(s.t, s1, p, id, s.cfg.policy.quarantineAfter, next, rest, c2, c3, c4, f);
  }

  lemma FailureUnread(s: Shared, p: Pid, id: EventId, token: Token, rest: seq<Record>, c: Choice, cs: seq<Choice>)
    ensures Within(s, p, FailRead(id, token, rest), [c] + cs, Failing) ==
            if c.fault.Fine? then Within(s, p, Counted(s.t, id, token, rest), cs, Failing) else (s, Resume(rest))
  {
    Goes(s, p, FailRead(id, token, rest), c, cs, Failing);
    FailureRead(s, p, id, token, rest, c);
  }

  lemma FailureAlone(s: Shared, p: Pid, id: EventId, token: Token, rest: seq<Record>, c1: Choice, c2: Choice, c3: Choice, c4: Choice, f: nat -> Fault)
    requires f(0) == c1.fault && f(1) == c2.fault && f(2) == c3.fault && f(3) == c4.fault
    ensures var out := Within(s, p, FailRead(id, token, rest), [c1] + ([c2] + [c3, c4]), Failing);
            out.0.t == FailedUnder(s.t, id, c2.text, s.cfg.policy, c2.draw, c2.now, f).0 && out.1 == Resume(rest)
  {
    FailureUnread(s, p, id, token, rest, c1, [c2] + [c3, c4]);
    if c1.fault.Fine? {
      FailureCounted(s, p, id, token, rest, c2, c3, c4, f, NextDue(s.t, id, s.cfg.policy, c2.draw, c2.now));
    }
  }

  lemma SoloFailure(s: Shared, p: Pid, id: EventId, token: Token, rest: seq<Record>, c1: Choice, c2: Choice, c3: Choice, c4: Choice)
    ensures var cs := [c1, c2, c3, c4];
            var (s', pc') := Within(s, p, FailRead(id, token, rest), cs, Failing);
            s'.t == FailedUnder(s.t, id, c2.text, s.cfg.policy, c2.draw, c2.now, Faults(cs)).0 && pc' == Resume(rest)
  {
    var cs := [c1, c2, c3, c4];
    assert cs == [c1] + ([c2] + [c3, c4]);
    FailureAlone(s, p, id, token, rest, c1, c2, c3, c4, Faults(cs));
  }

  // ---------- replaying ----------

  predicate InReplay(pc: Pc) {
    pc.ReplayRead? || pc.ReplayFind? || pc.ReplayBatch?
  }

  lemma ReplayFinds(s: Shared, p: Pid, id: EventId, letter: DeadLetter, now: Time, c: Choice)
    ensures var pc := ReplayFind(id, letter, now);
            && Step(s, p, pc, c) == s
            && StepPc(s, p, pc, c) == if c.fault.Fine?
                                      then ReplayBatch(id, letter, if id in s.t.outbox then s.t.outbox[id].occurredAt else now, now) else Done
  {
  }

  lemma ReplayWrites(s: Shared, p: Pid, id: EventId, letter: DeadLetter, occurredAt: Time, now: Time, c: Choice)
    ensures var pc := ReplayBatch(id, letter, occurredAt, now);
            Step(s, p, pc, c).t == Left(s.t, ReplayLetter(s.t, id, letter, occurredAt, now), c.fault) && StepPc(s, p, pc, c) == Done
  {
  }

  lemma ReplayFound(s: Shared, p: Pid, id: EventId, letter: DeadLetter, now: Time, c2: Choice, c3: Choice)
    ensures var occurredAt := if id in s.t.outbox then s.t.outbox[id].occurredAt else now;
            var (s', pc') := Within(s, p, ReplayFind(id, letter, now), [c2, c3], InReplay);
            s'.t == (if c2.fault.Fine? then Left(s.t, ReplayLetter(s.t, id, letter, occurredAt, now), c3.fault) else s.t) && pc' == Done
  {
    assert [c2, c3] == [c2] + [c3];
    Goes(s, p, ReplayFind(id, letter, now), c2, [c3], InReplay);
    ReplayFinds(s, p, id, letter, now, c2);
    if c2.fault.Fine? {
      var occurredAt := if id in s.t.outbox then s.t.outbox[id].occurredAt else now;
      Last(s, p, ReplayBatch(id, letter, occurredAt, now), c3, InReplay);
      ReplayWrites(s, p, id, letter, occurredAt, now, c3);
    }
  }

  lemma ReplayReads(s: Shared, p: Pid, id: EventId, c: Choice)
    ensures Step(s, p, ReplayRead(id), c) == s
    ensures StepPc(s, p, ReplayRead(id), c) == if c.fault.Fine? && id in s.t.deadById then ReplayFind(id, s.t.deadById[id], c.now) else Done
  {
  }

  lemma SoloReplay(s: Shared, p: Pid, id: EventId, c1: Choice, c2: Choice, c3: Choice)
    ensures var cs := [c1, c2, c3];
            var (s', pc') := Within(s, p, ReplayRead(id), cs, InReplay);
            s'.t == ReplayedUnder(s.t, id, c1.now, Faults(cs)).0 && pc' == Done
  {
    assert [c1, c2, c3] == [c1] + [c2, c3];
    Goes(s, p, ReplayRead(id), c1, [c2, c3], InReplay);
    ReplayReads(s, p, id, c1);
    if c1.fault.Fine? && id in s.t.deadById {
      ReplayFound(s, p, id, s.t.deadById[id], c1.now, c2, c3);
    }
  }

  // ---------- appending ----------

  predicate Appending(pc: Pc) {
    pc.AppendKey? || pc.AppendIndex? || pc.AppendBatch? || pc.AppendRead? || pc.AppendState?
  }

  /** The answer is reported, or nothing is when it is an error. */
  predicate Reported(before: seq<AppendReturn>, after: seq<AppendReturn>, r: Result<AppendResult>) {
    match r
    case Err(_) => after == before
    case Ok(a) =>
      && |after| == |before| + 1 && before <= after
      && var last := after[|before|]; last.id == a.id && last.event == a.event && last.duplicate == a.duplicate && last.published == a.published
  }

  /** Where a publisher stands after its append: it publishes what is not known to be published. */
  function Continue(r: Result<AppendResult>): Pc {
    if r.Ok? && !r.value.published then Publish(MessageOf(r.value.id, r.value.event.body), 1, []) else Done
  }

  predicate AppendMatches(s: Shared, out: (Shared, Pc), answer: (Tables, Result<AppendResult>)) {
    out.0.t == answer.0 && Reported(s.h.results, out.0.h.results, answer.1) && out.1 == Continue(answer.1)
  }

  lemma BatchMatches(s: Shared, p: Pid, req: Request, newId: EventId, owned: Option<KeyLife>, c: Choice)
    ensures AppendMatches(s, (Step(s, p, AppendBatch(req, newId, owned), c), StepPc(s, p, AppendBatch(req, newId, owned), c)),
                          Stored(s.t, req, newId, c.fault))
  {
    if c.fault.Fine? {
      assert Step(s, p, AppendBatch(req, newId, owned), c).h.results == s.h.results + [AppendReturn(owned, newId, req.row, false, false)];
    }
  }

  lemma StateMatches(s: Shared, p: Pid, id: EventId, own: KeyLife, key: string, c: Choice)
    requires id in s.t.byId
    ensures var pc := AppendState(id, own, s.t.byId[id]);
            AppendMatches(s, (Step(s, p, pc, c), StepPc(s, p, pc, c)), (s.t, if c.fault.Fine? then Existing(s.t, id, key) else Err(Broken)))
  {
    var pc := AppendState(id, own, s.t.byId[id]);
    if c.fault.Fine? && id in s.t.outbox {
      assert Step(s, p, pc, c).h.results == s.h.results + [AppendReturn(Some(own), id, s.t.byId[id], true, s.t.outbox[id].state == Published)];
    }
  }

  lemma DuplicateMatches(s: Shared, p: Pid, id: EventId, own: KeyLife, key: string, c2: Choice, c3: Choice, f: nat -> Fault)
    requires f(1) == c2.fault && f(2) == c3.fault
    ensures AppendMatches(s, Within(s, p, AppendRead(id, own), [c2, c3], Appending), (s.t, FoundUnder(s.t, id, key, f)))
  {
    var pc := AppendRead(id, own);
    assert [c2, c3] == [c2] + [c3];
    Goes(s, p, pc, c2, [c3], Appending);
    assert Step(s, p, pc, c2) == s;
    if c2.fault.Fine? && id in s.t.byId {
      Last(s, p, AppendState(id, own, s.t.byId[id]), c3, Appending);
      StateMatches(s, p, id, own, key, c3);
    }
  }

  lemma IndexMatches(s: Shared, p: Pid, req: Request, newId: EventId, own: KeyLife, created: Time, c2: Choice, c3: Choice)
    requires own.key == KeyOf(req)
    ensures var t2 := Left(s.t, InsertCreated(s.t, KeyOf(req), newId, c2.now), c2.fault);
            AppendMatches(s, Within(s, p, AppendIndex(req, newId, own, created), [c2, c3], Appending),
                          if c2.fault.Fine? then Stored(t2, req, newId, c3.fault) else (t2, Err(Broken)))
  {
    var pc := AppendIndex(req, newId, own, created);
    assert [c2, c3] == [c2] + [c3];
    Goes(s, p, pc, c2, [c3], Appending);
    var s1 := Step(s, p, pc, c2);
    assert s1.h.results == s.h.results;
    if c2.fault.Fine? {
      Last(s1, p, AppendBatch(req, newId, Some(own)), c3, Appending);
      BatchMatches(s1, p, req, newId, Some(own), c3);
    }
  }

  lemma KeyMoves(s: Shared, p: Pid, req: Request, newId: EventId, c: Choice)
    requires req.key != ""
    ensures var pc, key := AppendKey(req, newId), KeyOf(req);
            var own := KeyLife(key, Life(s.h.lives, key));
            && Step(s, p, pc, c).t == Left(s.t, InsertKey(s.t, key, newId, c.now), c.fault)
            && Step(s, p, pc, c).h.results == s.h.results
            && StepPc(s, p, pc, c) == if !c.fault.Fine? then Done
                                      else if key in s.t.keys then AppendRead(s.t.keys[key].id, own) else AppendIndex(req, newId, own, c.now)
  {
  }

  lemma KeyedMatches(s: Shared, p: Pid, req: Request, newId: EventId, c1: Choice, c2: Choice, c3: Choice)
    requires req.key != ""
    ensures var cs := [c1, c2, c3];
            AppendMatches(s, Within(s, p, AppendKey(req, newId), cs, Appending), AppendedUnder(s.t, req, newId, c1.now, c2.now, Faults(cs)))
  {
    var cs, pc := [c1, c2, c3], AppendKey(req, newId);
    var own := KeyLife(KeyOf(req), Life(s.h.lives, KeyOf(req)));
    assert cs == [c1] + [c2, c3];
    Goes(s, p, pc, c1, [c2, c3], Appending);
    var s1 := Step(s, p, pc, c1);
    KeyMoves(s, p, req, newId, c1);
    if c1.fault.Fine? && KeyOf(req) in s.t.keys {
      DuplicateMatches(s1, p, s.t.keys[KeyOf(req)].id, own, req.key, c2, c3, Faults(cs));
    } else if c1.fault.Fine? {
      IndexMatches(s1, p, req, newId, own, c1.now, c2, c3);
    }
  }

  /** An undisturbed publisher appends as AppendEventExactlyOnce does, reports its answer, and goes on to
      publish exactly what that answer does not call published. */
  lemma SoloAppend(s: Shared, p: Pid, req: Request, newId: EventId, c1: Choice, c2: Choice, c3: Choice)
    ensures var cs := [c1, c2, c3];
            AppendMatches(s, Within(s, p, Start(PublishTask(req, newId)), cs, Appending),
                          AppendedUnder(s.t, Normal(req), newId, c1.now, c2.now, Faults(cs)))
  {
    if req.key == "" {
      var pc := AppendBatch(Normal(req), newId, None);
      assert [c1, c2, c3] == [c1] + [c2, c3];
      Goes(s, p, pc, c1, [c2, c3], Appending);
      BatchMatches(s, p, Normal(req), newId, None, c1);
    } else {
      KeyedMatches(s, p, Normal(req), newId, c1, c2, c3);
    }
  }
}
