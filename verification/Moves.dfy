/** From single statements to moves of processes and to whole runs. */
module Moves {
  import opened Schema
  import opened Statements
  import opened Protocol
  import opened Invariant
  import opened Preservation

  lemma AppendPerformed(s: Shared, p: Pid, pc: Pc, c: Choice)
    requires SharedInv(s) && PcInv(s, p, pc) && (pc.AppendKey? || pc.AppendIndex? || pc.AppendBatch? || pc.CleanKeys?)
    ensures SharedInv(Perform(s, p, pc, c)) && Rely(s.h, Perform(s, p, pc, c).h, p)
  {
    match pc
    case AppendKey(_, _) => KeepAppendKey(s, p, pc, c);
    case AppendIndex(_, _, _, _) => KeepAppendIndex(s, p, pc, c);
    case AppendBatch(_, _, _) => KeepAppendBatch(s, p, pc, c);
    case CleanKeys(_, _, _, _) => KeepCleanKeys(s, p, pc, c);
  }

  lemma OutboxPerformed(s: Shared, p: Pid, pc: Pc, c: Choice)
    requires SharedInv(s) && PcInv(s, p, pc) && (pc.MarkBatch? || pc.FailWrite? || pc.DeadBatch? || pc.RelayClaim? || pc.ReplayBatch?)
    ensures SharedInv(Perform(s, p, pc, c)) && Rely(s.h, Perform(s, p, pc, c).h, p)
  {
    match pc
    case MarkBatch(_, _, _, _) => KeepMarkBatch(s, p, pc, c);
    case FailWrite(_, _, _, _, _) => KeepFailWrite(s, p, pc, c);
    case DeadBatch(_, _, _) => KeepDeadBatch(s, p, pc, c);
    case RelayClaim(_) => KeepRelayClaim(s, p, pc, c);
    case ReplayBatch(_, _, _, _) => KeepReplayBatch(s, p, pc, c);
  }

  lemma Performed(s: Shared, p: Pid, pc: Pc, c: Choice)
    requires SharedInv(s) && PcInv(s, p, pc)
    ensures SharedInv(Perform(s, p, pc, c)) && Rely(s.h, Perform(s, p, pc, c).h, p)
  {
    if pc.AppendKey? || pc.AppendIndex? || pc.AppendBatch? || pc.CleanKeys? {
      AppendPerformed(s, p, pc, c);
    } else if pc.MarkBatch? || pc.FailWrite? || pc.DeadBatch? || pc.RelayClaim? || pc.ReplayBatch? {
      OutboxPerformed(s, p, pc, c);
    } else if pc.CleanDead? {
      KeepCleanDead(s, p, pc, c);
    } else if pc.ClaimMessage? {
      KeepClaimMessage(s, p, pc, c);
    } else if pc.Emit? {
      KeepEmit(s, p, pc, c);
    } else {
      Unnoted(s.h, p);
      assert Perform(s, p, pc, c) == s;
    }
  }

  lemma QueueTail(h: History, queue: seq<Record>)
    requires QueueOk(h, queue) && queue != []
    ensures QueueOk(h, queue[1..])
  {
    forall i | 0 <= i < |queue| - 1 ensures RecordOk(h, queue[1..][i]) {
      assert RecordOk(h, queue[i + 1]);
    }
  }

  lemma ResumeOk(s: Shared, p: Pid, rest: seq<Record>)
    requires QueueOk(s.h, rest)
    ensures PcInv(s, p, Resume(rest))
  {
  }

  /** After an error reply a process relies on nothing but its queue. */
  lemma ErrorOk(s: Shared, s': Shared, p: Pid, pc: Pc)
    requires PcInv(s, p, pc) && Rely(s.h, s'.h, p) && !pc.Publish?
    ensures PcInv(s', p, OnError(pc))
  {
    if pc.MarkRead? || pc.MarkBatch? || pc.FailRead? || pc.FailWrite? || pc.DeadRead? || pc.DeadBatch? {
      QueueStable(s.h, s'.h, pc.rest);
      ResumeOk(s', p, pc.rest);
    } else if pc.RelayCheck? {
      QueueStable(s.h, s'.h, pc.out);
    } else if pc.RelayClaim? && pc.queue != [] {
      QueueTail(s.h, pc.queue);
      QueueStable(s.h, s'.h, pc.queue[1..]);
      ResumeOk(s', p, pc.queue[1..]);
    }
  }

  lemma PageOk(s: Shared, n: nat, i: nat)
    requires SharedInv(s) && i < |First(PendingRows(s.t), n)|
    ensures var k := First(PendingRows(s.t), n)[i];
            k in s.t.pending && k.id in s.h.orig && s.t.pending[k] == s.h.orig[k.id].body && k.at == s.h.orig[k.id].occurredAt
  {
    assert First(PendingRows(s.t), n)[i] in PendingRows(s.t);
  }

  lemma ProceedKey(s: Shared, p: Pid, pc: Pc, c: Choice)
    requires SharedInv(s) && PcInv(s, p, pc) && pc.AppendKey?
    ensures PcInv(Perform(s, p, pc, c), p, Proceed(s, p, pc, c))
  {
  }

  lemma ProceedStore(s: Shared, p: Pid, pc: Pc, c: Choice)
    requires PcInv(s, p, pc) && (pc.AppendIndex? || pc.AppendBatch?)
    ensures PcInv(Perform(s, p, pc, c), p, Proceed(s, p, pc, c))
  {
  }

  lemma ProceedDuplicate(s: Shared, p: Pid, pc: Pc, c: Choice)
    requires SharedInv(s) && PcInv(s, p, pc) && (pc.AppendRead? || pc.AppendState?)
    ensures PcInv(Perform(s, p, pc, c), p, Proceed(s, p, pc, c))
  {
  }

  lemma ProceedMark(s: Shared, p: Pid, pc: Pc, c: Choice)
    requires SharedInv(s) && PcInv(s, p, pc) && (pc.MarkRead? || pc.MarkBatch?)
    ensures PcInv(Perform(s, p, pc, c), p, Proceed(s, p, pc, c))
  {
    ResumeOk(Perform(s, p, pc, c), p, pc.rest);
  }

  lemma ProceedDead(s: Shared, p: Pid, pc: Pc, c: Choice)
    requires SharedInv(s) && PcInv(s, p, pc) && (pc.DeadRead? || pc.DeadBatch?)
    ensures PcInv(Perform(s, p, pc, c), p, Proceed(s, p, pc, c))
  {
    ResumeOk(Perform(s, p, pc, c), p, pc.rest);
  }

  lemma ProceedFailRead(s: Shared, p: Pid, pc: Pc, c: Choice)
    requires SharedInv(s) && PcInv(s, p, pc) && pc.FailRead?
    ensures PcInv(Perform(s, p, pc, c), p, Proceed(s, p, pc, c))
  {
  }

  lemma ProceedFailWrite(s: Shared, p: Pid, pc: Pc, c: Choice)
    requires PcInv(s, p, pc) && pc.FailWrite?
    ensures PcInv(Perform(s, p, pc, c), p, Proceed(s, p, pc, c))
  {
    var s' := Perform(s, p, pc, c);
    GrowTokens(s.h.recorded, pc.id, pc.token, pc.id);
    ResumeOk(s', p, pc.rest);
  }

  lemma ProceedFetch(s: Shared, p: Pid, pc: Pc, c: Choice)
    requires SharedInv(s) && pc.RelayFetch?
    ensures PcInv(Perform(s, p, pc, c), p, Proceed(s, p, pc, c))
  {
    var n := FetchLimit(pc.limit);
    forall i | 0 <= i < |First(PendingRows(s.t), n)|
      ensures var k := First(PendingRows(s.t), n)[i];
              k in s.t.pending && k.id in s.h.orig && s.t.pending[k] == s.h.orig[k.id].body && k.at == s.h.orig[k.id].occurredAt
    {
      PageOk(s, n, i);
    }
  }

  lemma ProceedCheck(s: Shared, p: Pid, pc: Pc, c: Choice)
    requires CountsJustified(s.t.retry, s.h.recorded, s.cfg.policy.quarantineAfter) && PcInv(s, p, pc) && pc.RelayCheck?
    ensures PcInv(Perform(s, p, pc, c), p, Proceed(s, p, pc, c))
  {
  }

  lemma ProceedClaim(s: Shared, p: Pid, pc: Pc, c: Choice)
    requires PcInv(s, p, pc) && pc.RelayClaim?
    ensures PcInv(Perform(s, p, pc, c), p, Proceed(s, p, pc, c))
  {
    if pc.queue != [] {
      assert RecordOk(s.h, pc.queue[0]);
      QueueTail(s.h, pc.queue);
    }
  }

  lemma ProceedReplay(s: Shared, p: Pid, pc: Pc, c: Choice)
    requires SharedInv(s) && PcInv(s, p, pc) && (pc.ReplayRead? || pc.ReplayFind? || pc.ReplayBatch?)
    ensures PcInv(Perform(s, p, pc, c), p, Proceed(s, p, pc, c))
  {
    if pc.ReplayRead? && pc.id in s.t.deadById {
      assert Slot(s.t.deadById[pc.id].at, pc.id) in s.t.deadByTime;
    }
  }

  lemma ProceedReceive(s: Shared, p: Pid, pc: Pc, c: Choice)
    requires SharedInv(s) && pc.Receive? && Deliverable(s.h, c.delivery)
    ensures PcInv(Perform(s, p, pc, c), p, Proceed(s, p, pc, c))
  {
    if c.delivery.message.EventMsg? {
      var i :| 0 <= i < |s.h.log| && s.h.log[i] == Message(c.delivery.message.id, c.delivery.subject, c.delivery.payload);
      assert MessageOk(s.h.orig, s.h.log[i]);
    }
  }

  lemma ProceedClaimed(s: Shared, p: Pid, pc: Pc, c: Choice)
    requires SharedInv(s) && PcInv(s, p, pc) && (pc.ClaimMessage? || pc.Emit?)
    ensures PcInv(Perform(s, p, pc, c), p, Proceed(s, p, pc, c))
  {
    if pc.ClaimMessage? && !pc.delivery.message.NoId? && InboxKey(pc.consumer, pc.delivery.message) !in s.t.inbox {
      assert forall i :: 0 <= i < |s.h.emitted| ==> EmissionOk(s.h.orig, s.h.claims, s.h.emitted[i]);
    }
  }

  lemma ProceedsAppend(s: Shared, p: Pid, pc: Pc, c: Choice)
    requires SharedInv(s) && PcInv(s, p, pc) && (pc.AppendKey? || pc.AppendIndex? || pc.AppendBatch? || pc.AppendRead? || pc.AppendState?)
    ensures PcInv(Perform(s, p, pc, c), p, Proceed(s, p, pc, c))
  {
    if pc.AppendKey? {
      ProceedKey(s, p, pc, c);
    } else if pc.AppendIndex? || pc.AppendBatch? {
      ProceedStore(s, p, pc, c);
    } else {
      ProceedDuplicate(s, p, pc, c);
    }
  }

  lemma ProceedsRelay(s: Shared, p: Pid, pc: Pc, c: Choice)
    requires SharedInv(s) && PcInv(s, p, pc) && (pc.RelayFetch? || pc.RelayCheck? || pc.RelayClaim? || pc.FailRead? || pc.FailWrite?)
    ensures PcInv(Perform(s, p, pc, c), p, Proceed(s, p, pc, c))
  {
    match pc
    case RelayFetch(_) => ProceedFetch(s, p, pc, c);
    case RelayCheck(_, _, _, _) => ProceedCheck(s, p, pc, c);
    case RelayClaim(_) => ProceedClaim(s, p, pc, c);
    case FailRead(_, _, _) => ProceedFailRead(s, p, pc, c);
    case FailWrite(_, _, _, _, _) => ProceedFailWrite(s, p, pc, c);
  }

  lemma Proceeds(s: Shared, p: Pid, pc: Pc, c: Choice)
    requires SharedInv(s) && PcInv(s, p, pc) && !pc.Publish?
    requires pc.Receive? ==> Deliverable(s.h, c.delivery)
    ensures PcInv(Perform(s, p, pc, c), p, Proceed(s, p, pc, c))
  {
    if pc.AppendKey? || pc.AppendIndex? || pc.AppendBatch? || pc.AppendRead? || pc.AppendState? {
      ProceedsAppend(s, p, pc, c);
    } else if pc.RelayFetch? || pc.RelayCheck? || pc.RelayClaim? || pc.FailRead? || pc.FailWrite? {
      ProceedsRelay(s, p, pc, c);
    } else if pc.MarkRead? || pc.MarkBatch? {
      ProceedMark(s, p, pc, c);
    } else if pc.DeadRead? || pc.DeadBatch? {
      ProceedDead(s, p, pc, c);
    } else if pc.ReplayRead? || pc.ReplayFind? || pc.ReplayBatch? {
      ProceedReplay(s, p, pc, c);
    } else if pc.Receive? {
      ProceedReceive(s, p, pc, c);
    } else if pc.ClaimMessage? || pc.Emit? {
      ProceedClaimed(s, p, pc, c);
    }
  }

  // ---------- reports of successful appends ----------

  lemma ReturnAdded(h: History, r: AppendReturn, p: Pid)
    requires ReturnsHonest(h.results, h.orig, h.owners) && ReturnOk(h.orig, h.owners, r)
    requires !r.duplicate ==> forall i :: 0 <= i < |h.results| ==> h.results[i].id != r.id
    ensures ReturnsHonest(h.results + [r], h.orig, h.owners)
    ensures Rely(h, h.(results := h.results + [r]), p)
  {
  }

  /** Nothing was returned yet for an event that is not stored. */
  lemma NoReturnYet(h: History, id: EventId)
    requires ReturnsHonest(h.results, h.orig, h.owners) && id !in h.orig
    ensures forall i :: 0 <= i < |h.results| ==> h.results[i].id != id
  {
    forall i | 0 <= i < |h.results| ensures h.results[i].id != id {
      assert ReturnOk(h.orig, h.owners, h.results[i]);
    }
  }

  lemma Reported(s: Shared, p: Pid, pc: Pc, c: Choice)
    requires SharedInv(s) && PcInv(s, p, pc)
    ensures var s' := Perform(s, p, pc, c);
            SharedInv(s'.(h := Report(s', pc))) && Rely(s'.h, Report(s', pc), p)
  {
    var s' := Perform(s, p, pc, c);
    Performed(s, p, pc, c);
    if pc.AppendBatch? {
      NoReturnYet(s.h, pc.newId);
      ReturnAdded(s'.h, AppendReturn(pc.owned, pc.newId, pc.req.row, false, false), p);
    } else if pc.AppendState? && pc.existing in s'.t.outbox {
      assert s'.h == s.h;
      ReturnAdded(s'.h, AppendReturn(Some(pc.own), pc.existing, pc.row, true, s'.t.outbox[pc.existing].state == Published), p);
    } else {
      Unnoted(s'.h, p);
      assert s'.(h := Report(s', pc)) == s';
    }
  }

  lemma RelyTrans(h: History, h1: History, h2: History, p: Pid)
    requires Rely(h, h1, p) && Rely(h1, h2, p) && h1.holder == h2.holder && h2.emitted == h1.emitted
    ensures Rely(h, h2, p)
  {
  }

  // ---------- broker attempts ----------

  lemma LogGrows(s: Shared, p: Pid, m: Message)
    requires SharedInv(s) && MessageOk(s.h.orig, m)
    ensures var h' := s.h.(log := s.h.log + [m]); SharedInv(s.(h := h')) && Rely(s.h, h', p) && Accepted(h'.log, m.id)
  {
    var log' := s.h.log + [m];
    assert log'[|s.h.log|] == m;
    forall id | id in s.t.outbox && s.t.outbox[id].state == Published ensures Accepted(log', id) {
      AcceptedStable(s.h.log, log', id);
    }
  }

  lemma IssueKeeps(s: Shared, p: Pid, id: EventId, token: Token)
    requires SharedInv(s)
    ensures var h' := s.h.(issued := Grow(s.h.issued, id, token)); SharedInv(s.(h := h')) && Rely(s.h, h', p)
  {
    forall k: EventId ensures Tokens(s.h.issued, k) <= Tokens(Grow(s.h.issued, id, token), k) {
      GrowTokens(s.h.issued, id, token, k);
    }
  }

  /** The broker's part of an attempt: the message is in the log, or nothing happened. */
  lemma Offered(s: Shared, p: Pid, pc: Pc, refused: bool)
    requires SharedInv(s) && PcInv(s, p, pc) && pc.Publish?
    ensures var s1 := Offer(s, pc.msg, refused);
            SharedInv(s1) && Rely(s.h, s1.h, p) && PcInv(s1, p, pc) && (!refused ==> Accepted(s1.h.log, pc.msg.id))
  {
    if refused {
      Unnoted(s.h, p);
    } else {
      LogGrows(s, p, pc.msg);
      QueueStable(s.h, s.h.(log := s.h.log + [pc.msg]), pc.rest);
    }
  }

  lemma GivenUp(s: Shared, p: Pid, pc: Pc, token: Token)
    requires SharedInv(s) && PcInv(s, p, pc) && pc.Publish? && token.pid == p && token !in Tokens(s.h.issued, pc.msg.id)
    ensures var s' := GiveUp(s, pc.msg.id, token);
            SharedInv(s') && Rely(s.h, s'.h, p) && PcInv(s', p, FailRead(pc.msg.id, token, pc.rest))
  {
    IssueKeeps(s, p, pc.msg.id, token);
    GrowTokens(s.h.issued, pc.msg.id, token, pc.msg.id);
    assert Tokens(s.h.recorded, pc.msg.id) <= Tokens(s.h.issued, pc.msg.id);
  }

  /** Giving up after the bus had its turn. */
  lemma RoundOver(s: Shared, s1: Shared, p: Pid, pc: Pc, token: Token)
    requires SharedInv(s1) && PcInv(s1, p, pc) && pc.Publish? && token.pid == p && token !in Tokens(s1.h.issued, pc.msg.id)
    requires Rely(s.h, s1.h, p)
    ensures var s' := GiveUp(s1, pc.msg.id, token);
            SharedInv(s') && PcInv(s', p, FailRead(pc.msg.id, token, pc.rest)) && Rely(s.h, s'.h, p)
  {
    GivenUp(s1, p, pc, token);
    RelyTrans(s.h, s1.h, GiveUp(s1, pc.msg.id, token).h, p);
  }

  lemma AttemptFails(s: Shared, p: Pid, pc: Pc, c: Choice)
    requires pc.Publish? && !c.fault.Fine? && LastAttempt(s, pc, c)
    ensures Attempt(s, p, pc, c) == GiveUp(Offer(s, pc.msg, c.fault.Refused?), pc.msg.id, Token(p, c.draw))
    ensures AttemptPc(s, p, pc, c) == FailRead(pc.msg.id, Token(p, c.draw), pc.rest)
    ensures Offer(s, pc.msg, c.fault.Refused?).h.issued == s.h.issued
  {
  }

  lemma RoundFailed(s: Shared, p: Pid, pc: Pc, c: Choice)
    requires SharedInv(s) && PcInv(s, p, pc) && pc.Publish? && Token(p, c.draw) !in Tokens(s.h.issued, pc.msg.id)
    requires !c.fault.Fine? && LastAttempt(s, pc, c)
    ensures var s' := Attempt(s, p, pc, c); SharedInv(s') && PcInv(s', p, AttemptPc(s, p, pc, c)) && Rely(s.h, s'.h, p)
  {
    AttemptFails(s, p, pc, c);
    Offered(s, p, pc, c.fault.Refused?);
    RoundOver(s, Offer(s, pc.msg, c.fault.Refused?), p, pc, Token(p, c.draw));
  }

  lemma Attempted(s: Shared, p: Pid, pc: Pc, c: Choice)
    requires SharedInv(s) && PcInv(s, p, pc) && pc.Publish? && Token(p, c.draw) !in Tokens(s.h.issued, pc.msg.id)
    ensures var s' := Attempt(s, p, pc, c); SharedInv(s') && PcInv(s', p, AttemptPc(s, p, pc, c)) && Rely(s.h, s'.h, p) && s'.cfg == s.cfg
  {
    if !c.fault.Fine? && LastAttempt(s, pc, c) {
      RoundFailed(s, p, pc, c);
    } else {
      Offered(s, p, pc, c.fault.Refused?);
      assert Attempt(s, p, pc, c) == Offer(s, pc.msg, c.fault.Refused?);
    }
  }

  // ---------- moves and runs ----------

  /** A statement that was refused, or whose reply was lost. */
  lemma Unanswered(s: Shared, p: Pid, pc: Pc, c: Choice)
    requires SharedInv(s) && PcInv(s, p, pc) && !pc.Publish? && !c.fault.Fine?
    ensures var s' := Step(s, p, pc, c); SharedInv(s') && PcInv(s', p, StepPc(s, p, pc, c)) && Rely(s.h, s'.h, p) && s'.cfg == s.cfg
  {
    if c.fault.Refused? {
      Unnoted(s.h, p);
      ErrorOk(s, s, p, pc);
    } else {
      Performed(s, p, pc, c);
      ErrorOk(s, Perform(s, p, pc, c), p, pc);
    }
  }

  lemma Stepped(s: Shared, p: Pid, pc: Pc, c: Choice)
    requires SharedInv(s) && PcInv(s, p, pc)
    requires pc.Publish? ==> Token(p, c.draw) !in Tokens(s.h.issued, pc.msg.id)
    requires pc.Receive? ==> Deliverable(s.h, c.delivery)
    ensures var s' := Step(s, p, pc, c); SharedInv(s') && PcInv(s', p, StepPc(s, p, pc, c)) && Rely(s.h, s'.h, p) && s'.cfg == s.cfg
  {
    if pc.Publish? {
      Attempted(s, p, pc, c);
    } else if c.fault.Fine? {
      SteppedFine(s, p, pc, c);
    } else {
      Unanswered(s, p, pc, c);
    }
  }

  lemma SteppedFine(s: Shared, p: Pid, pc: Pc, c: Choice)
    requires SharedInv(s) && PcInv(s, p, pc) && !pc.Publish? && c.fault.Fine?
    requires pc.Receive? ==> Deliverable(s.h, c.delivery)
    ensures var s' := Step(s, p, pc, c); SharedInv(s') && PcInv(s', p, StepPc(s, p, pc, c)) && Rely(s.h, s'.h, p) && s'.cfg == s.cfg
  {
    Answered(s, p, pc, c);
  }

  lemma Answered(s: Shared, p: Pid, pc: Pc, c: Choice)
    requires SharedInv(s) && PcInv(s, p, pc) && !pc.Publish?
    requires pc.Receive? ==> Deliverable(s.h, c.delivery)
    ensures var s1 := Perform(s, p, pc, c); var s' := s1.(h := Report(s1, pc));
            SharedInv(s') && PcInv(s', p, Proceed(s, p, pc, c)) && Rely(s.h, s'.h, p)
  {
    var s1 := Perform(s, p, pc, c);
    Performed(s, p, pc, c);
    Proceeds(s, p, pc, c);
    Reported(s, p, pc, c);
    RelyTrans(s.h, s1.h, Report(s1, pc), p);
    ReportLocal(s1, p, pc, Proceed(s, p, pc, c));
  }

  /** What one move does to the tables. */
  lemma StepTables(s: Shared, p: Pid, pc: Pc, c: Choice)
    ensures Step(s, p, pc, c).t == if pc.Publish? || c.fault.Refused? then s.t else Effect(s, pc, c)
  {
  }

  /** Reporting a result does not touch what local assertions speak about. */
  lemma ReportLocal(s: Shared, p: Pid, pc: Pc, pc': Pc)
    requires PcInv(s, p, pc')
    ensures PcInv(s.(h := Report(s, pc)), p, pc')
  {
  }

  lemma Begun(s: Shared, p: Pid, task: Task)
    requires SharedInv(s) && (task.PublishTask? ==> task.newId !in s.h.holder)
    ensures var h' := if task.PublishTask? then s.h.(holder := s.h.holder[task.newId := p]) else s.h;
            SharedInv(s.(h := h')) && PcInv(s.(h := h'), p, Start(task)) && Rely(s.h, h', p)
  {
  }

  ghost predicate LocalsOk(s: Shared, procs: map<Pid, Pc>) {
    forall q :: q in procs ==> PcInv(s, q, procs[q])
  }

  /** The other processes keep their local assertions. */
  lemma OthersStable(s: Shared, s': Shared, procs: map<Pid, Pc>, p: Pid)
    requires LocalsOk(s, procs) && Rely(s.h, s'.h, p) && s'.cfg == s.cfg
    ensures LocalsOk(s', procs - {p})
  {
    forall q | q in procs - {p} ensures PcInv(s', q, procs[q]) {
      Stable(s, s', p, q, procs[q]);
    }
  }

  lemma OneMore(s: Shared, procs: map<Pid, Pc>, p: Pid, pc: Pc)
    requires LocalsOk(s, procs - {p}) && PcInv(s, p, pc)
    ensures LocalsOk(s, procs[p := pc])
  {
    var procs' := procs[p := pc];
    forall q | q in procs' ensures PcInv(s, q, procs'[q]) {
      if q != p { assert q in procs - {p}; }
    }
  }

  /** One event of any process keeps the invariant of the whole world. */
  lemma NextKeeps(w: World, e: Event)
    requires Inv(w) && Enabled(w, e)
    ensures Inv(Next(w, e))
    ensures Rely(w.s.h, Next(w, e).s.h, e.p)
  {
    assert LocalsOk(w.s, w.procs);
    var w' := Next(w, e);
    match e
    case Begin(p, task) =>
      Begun(w.s, p, task);
      OthersStable(w.s, w'.s, w.procs, p);
      OneMore(w'.s, w.procs, p, Start(task));
    case Move(p, c) =>
      Stepped(w.s, p, w.procs[p], c);
      OthersStable(w.s, w'.s, w.procs, p);
      OneMore(w'.s, w.procs, p, w'.procs[p]);
    case Halt(p) =>
      Unnoted(w.s.h, p);
      OthersStable(w.s, w'.s, w.procs, p);
  }

  /** The invariant holds after every run from a good world. */
  lemma {:induction false} RunKeeps(w: World, run: seq<Event>)
    requires Inv(w) && Legal(w, run)
    ensures Inv(After(w, run))
    decreases |run|
  {
    if run != [] {
      NextKeeps(w, run[0]);
      RunKeeps(Next(w, run[0]), run[1..]);
    }
  }

  /** Events, the broker log and the reports only ever grow. */
  lemma {:induction false} RunGrows(w: World, run: seq<Event>)
    requires Inv(w) && Legal(w, run)
    ensures var w' := After(w, run); Extends(w.s.h.orig, w'.s.h.orig) && w.s.h.log <= w'.s.h.log && w.s.h.results <= w'.s.h.results
    decreases |run|
  {
    if run != [] {
      NextKeeps(w, run[0]);
      RunGrows(Next(w, run[0]), run[1..]);
    }
  }

  lemma InitialInv(cfg: Config)
    requires Sound(cfg)
    ensures Inv(Initial(cfg))
  {
  }

  /** Every reachable world satisfies the invariant. */
  lemma Reachable(cfg: Config, run: seq<Event>)
    requires Sound(cfg) && Legal(Initial(cfg), run)
    ensures Inv(After(Initial(cfg), run))
  {
    InitialInv(cfg);
    RunKeeps(Initial(cfg), run);
  }
}
