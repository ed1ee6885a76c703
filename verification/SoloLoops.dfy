/** The loops of undisturbed processes: a relay's scan of its page, a publication round, and the two halves of
    a cleanup pass do what the operations do, whatever faults their statements meet. */
module SoloLoops {
  import opened Schema
  import opened Statements
  import opened Protocol
  import opened Operations
  import opened Handout
  import opened DueTimes
  import opened Moves
  import opened Solo

  // ---------- cleanup ----------

  /** From position `at` on, f gives the faults of these moves. */
  ghost predicate FaultsFrom(cs: seq<Choice>, f: nat -> Fault, at: nat) {
    forall i :: 0 <= i < |cs| ==> f(at + i) == cs[i].fault
  }

  lemma FaultsRest(cs: seq<Choice>, f: nat -> Fault, at: nat)
    requires cs != [] && FaultsFrom(cs, f, at)
    ensures f(at) == cs[0].fault && FaultsFrom(cs[1..], f, at + 1)
  {
    assert f(at + 0) == cs[0].fault;
    forall i | 0 <= i < |cs[1..]| ensures f(at + 1 + i) == cs[1..][i].fault {
      assert f(at + (i + 1)) == cs[i + 1].fault;
    }
  }

  predicate CleaningKeys(pc: Pc) { pc.CleanKeys? }

  lemma KeyMoves(s: Shared, p: Pid, pc: Pc, c: Choice)
    requires pc.CleanKeys? && pc.stale != []
    ensures Step(s, p, pc, c).t == if c.fault.Refused? then s.t else DeleteKey(s.t, pc.stale[0])
    ensures StepPc(s, p, pc, c) == pc.(stale := pc.stale[1..])
  {
  }

  /** The key half of a pass deletes what its operation deletes. */
  lemma {:induction false} SoloKeys(s: Shared, p: Pid, pc: Pc, cs: seq<Choice>, f: nat -> Fault, at: nat)
    requires pc.CleanKeys? && |cs| == |pc.stale| && FaultsFrom(cs, f, at)
    ensures var (s', pc') := Within(s, p, pc, cs, CleaningKeys);
            s'.t == DeleteKeys(s.t, pc.stale, f, at).0 && pc' == pc.(stale := [])
    decreases |cs|
  {
    if cs != [] {
      FaultsRest(cs, f, at);
      KeyMoves(s, p, pc, cs[0]);
      SoloKeys(Step(s, p, pc, cs[0]), p, StepPc(s, p, pc, cs[0]), cs[1..], f, at + 1);
    }
  }

  predicate CleaningLetters(pc: Pc) { pc.CleanDead? }

  lemma LetterMoves(s: Shared, p: Pid, pc: Pc, c: Choice)
    requires pc.CleanDead? && pc.slots != []
    ensures Step(s, p, pc, c).t == if c.fault.Refused? then s.t else DeleteDeadLetter(s.t, pc.slots[0])
    ensures StepPc(s, p, pc, c) == CleanDead(pc.slots[1..])
  {
  }

  /** So does the dead-letter half. */
  lemma {:induction false} SoloLetters(s: Shared, p: Pid, pc: Pc, cs: seq<Choice>, f: nat -> Fault, at: nat)
    requires pc.CleanDead? && |cs| == |pc.slots| && FaultsFrom(cs, f, at)
    ensures var (s', pc') := Within(s, p, pc, cs, CleaningLetters);
            s'.t == DeleteDeadLetters(s.t, pc.slots, f, at).0 && pc' == CleanDead([])
    decreases |cs|
  {
    if cs != [] {
      FaultsRest(cs, f, at);
      LetterMoves(s, p, pc, cs[0]);
      SoloLetters(Step(s, p, pc, cs[0]), p, StepPc(s, p, pc, cs[0]), cs[1..], f, at + 1);
    }
  }

  lemma KeyPage(s: Shared, p: Pid, c: Choice, keyCutoff: Time, deadCutoff: Time, limit: int)
    requires c.fault.Fine?
    ensures Step(s, p, CleanFetch(keyCutoff, deadCutoff, limit), c) == s
    ensures StepPc(s, p, CleanFetch(keyCutoff, deadCutoff, limit), c) == CleanKeys(ExpiredKeys(s.t, keyCutoff, limit), keyCutoff, deadCutoff, limit)
  {
  }

  lemma HalfWay(s: Shared, p: Pid, c: Choice, keyCutoff: Time, deadCutoff: Time, limit: int)
    requires c.fault.Fine?
    ensures Step(s, p, CleanKeys([], keyCutoff, deadCutoff, limit), c) == s
    ensures StepPc(s, p, CleanKeys([], keyCutoff, deadCutoff, limit), c) == CleanDeadFetch(deadCutoff, limit)
  {
  }

  lemma LetterPage(s: Shared, p: Pid, c: Choice, deadCutoff: Time, limit: int)
    requires c.fault.Fine?
    ensures Step(s, p, CleanDeadFetch(deadCutoff, limit), c) == s
    ensures StepPc(s, p, CleanDeadFetch(deadCutoff, limit), c) == CleanDead(ExpiredLetters(s.t, deadCutoff, limit))
  {
  }

  /** An undisturbed pass whose pages load leaves the tables of the operation, whichever deletions fail. */
  lemma SoloClean(s: Shared, p: Pid, keyCutoff: Time, deadCutoff: Time, limit: int, c1: Choice, cs: seq<Choice>, c2: Choice, c3: Choice,
                  ds: seq<Choice>, f: nat -> Fault, g: nat -> Fault)
    requires c1.fault.Fine? && c2.fault.Fine? && c3.fault.Fine? && FaultsFrom(cs, f, 0) && FaultsFrom(ds, g, 0)
    requires var t1 := DeleteKeys(s.t, ExpiredKeys(s.t, keyCutoff, limit), f, 0).0;
             |cs| == |ExpiredKeys(s.t, keyCutoff, limit)| && |ds| == |ExpiredLetters(t1, deadCutoff, limit)|
    ensures var fetch := CleanFetch(keyCutoff, deadCutoff, limit);
            var (s1, pc1) := Within(Step(s, p, fetch, c1), p, StepPc(s, p, fetch, c1), cs, CleaningKeys);
            var (s2, pc2) := (Step(s1, p, pc1, c2), StepPc(s1, p, pc1, c2));
            var (s3, pc3) := Within(Step(s2, p, pc2, c3), p, StepPc(s2, p, pc2, c3), ds, CleaningLetters);
            s3.t == CleanedUnder(s.t, keyCutoff, deadCutoff, limit, Fine, f, Fine, g).0 && pc3 == CleanDead([])
  {
    var keys := CleanKeys(ExpiredKeys(s.t, keyCutoff, limit), keyCutoff, deadCutoff, limit);
    KeyPage(s, p, c1, keyCutoff, deadCutoff, limit);
    SoloKeys(s, p, keys, cs, f, 0);
    var s1 := Within(s, p, keys, cs, CleaningKeys).0;
    HalfWay(s1, p, c2, keyCutoff, deadCutoff, limit);
    LetterPage(s1, p, c3, deadCutoff, limit);
    SoloLetters(s1, p, CleanDead(ExpiredLetters(s1.t, deadCutoff, limit)), ds, g, 0);
  }

  // ---------- the scan ----------

  predicate Scanning(pc: Pc) { pc.RelayCheck? }

  /** What a relay has found so far, while it scans and once it goes on to claim. */
  function Found(pc: Pc): seq<Record> {
    match pc
    case RelayCheck(_, _, out, _) => out
    case RelayClaim(queue) => queue
    case _ => []
  }

  /** The looks of the operation are the readings of these moves; a failed read gives none. */
  ghost predicate LooksFrom(cs: seq<Choice>, looks: nat -> Option<Time>, at: nat) {
    forall i :: 0 <= i < |cs| ==> looks(at + i) == if cs[i].fault.Fine? then Some(cs[i].now) else None
  }

  lemma LooksRest(cs: seq<Choice>, looks: nat -> Option<Time>, at: nat)
    requires cs != [] && LooksFrom(cs, looks, at)
    ensures looks(at) == (if cs[0].fault.Fine? then Some(cs[0].now) else None) && LooksFrom(cs[1..], looks, at + 1)
  {
    assert looks(at + 0) == if cs[0].fault.Fine? then Some(cs[0].now) else None;
    forall i | 0 <= i < |cs[1..]| ensures looks(at + 1 + i) == if cs[1..][i].fault.Fine? then Some(cs[1..][i].now) else None {
      assert looks(at + (i + 1)) == if cs[i + 1].fault.Fine? then Some(cs[i + 1].now) else None;
    }
  }

  /** A page as a relay holds it, read from these tables. */
  ghost predicate PageOf(t: Tables, pc: Pc) {
    pc.RelayCheck? && |pc.out| <= pc.room && forall k :: k in pc.page ==> k in t.pending && k in pc.bodies && pc.bodies[k] == t.pending[k]
  }

  /** A relay starts with the page of the scan operation, nothing found and the batch limit to fill. */
  lemma RelayPage(s: Shared, p: Pid, c: Choice, limit: int)
    requires c.fault.Fine?
    ensures Step(s, p, RelayFetch(limit), c) == s
    ensures StepPc(s, p, RelayFetch(limit), c) == RelayCheck(Page(s.t, limit), s.t.pending, [], BatchLimit(limit))
    ensures PageOf(s.t, StepPc(s, p, RelayFetch(limit), c))
  {
  }

  lemma LookOne(s: Shared, p: Pid, pc: Pc, c: Choice, looks: nat -> Option<Time>, at: nat)
    requires PageOf(s.t, pc) && pc.page != [] && |pc.out| < pc.room
    requires looks(at) == if c.fault.Fine? then Some(c.now) else None
    ensures Step(s, p, pc, c) == s && PageOf(s.t, StepPc(s, p, pc, c)) && StepPc(s, p, pc, c).page == pc.page[1..]
    ensures var pc' := StepPc(s, p, pc, c);
            pc.out + Scan(s.t, pc.page, looks, at, pc.room - |pc.out|) == pc'.out + Scan(s.t, pc'.page, looks, at + 1, pc'.room - |pc'.out|)
  {
    CheckMoves(s, p, pc, c);
    SkippedExactly(s.t, pc.page[0], looks(at));
  }

  lemma {:induction false} FullScan(s: Shared, p: Pid, pc: Pc, cs: seq<Choice>)
    requires pc.RelayCheck? && |pc.out| >= pc.room
    ensures var (s', pc') := Within(s, p, pc, cs, Scanning); s' == s && Found(pc') == pc.out
    decreases |cs|
  {
    if cs != [] {
      FullMoves(s, p, pc, cs[0]);
      if !cs[0].fault.Fine? { FullScan(s, p, StepPc(s, p, pc, cs[0]), cs[1..]); }
    }
  }

  lemma FullMoves(s: Shared, p: Pid, pc: Pc, c: Choice)
    requires pc.RelayCheck? && |pc.out| >= pc.room
    ensures Step(s, p, pc, c) == s && Found(StepPc(s, p, pc, c)) == pc.out
    ensures c.fault.Fine? ==> !Scanning(StepPc(s, p, pc, c))
    ensures !c.fault.Fine? ==> Scanning(StepPc(s, p, pc, c)) && StepPc(s, p, pc, c).room == pc.room
  {
    assert Perform(s, p, pc, c) == s;
  }

  /** An undisturbed relay finds what the scan operation returns. */
  lemma {:induction false} SoloScan(s: Shared, p: Pid, pc: Pc, cs: seq<Choice>, looks: nat -> Option<Time>, at: nat)
    requires PageOf(s.t, pc) && |cs| == |pc.page| && LooksFrom(cs, looks, at)
    ensures var (s', pc') := Within(s, p, pc, cs, Scanning);
            s' == s && Found(pc') == pc.out + Scan(s.t, pc.page, looks, at, pc.room - |pc.out|)
    decreases |cs|
  {
    if |pc.out| == pc.room {
      FullScan(s, p, pc, cs);
    } else if cs != [] {
      LooksRest(cs, looks, at);
      LookOne(s, p, pc, cs[0], looks, at);
      var pc1 := StepPc(s, p, pc, cs[0]);
      SoloScan(s, p, pc1, cs[1..], looks, at + 1);
      assert Within(s, p, pc, cs, Scanning) == Within(s, p, pc1, cs[1..], Scanning);
    }
  }

  // ---------- a publication round ----------

  predicate Trying(pc: Pc) { pc.Publish? }

  /** No attempt is acknowledged, and the caller does not give up. */
  predicate Unanswered(cs: seq<Choice>) {
    forall i :: 0 <= i < |cs| ==> !cs[i].fault.Fine? && !cs[i].cancel
  }

  /** The copies the bus took without acknowledging them. */
  function Copies(cs: seq<Choice>, m: Message): seq<Message> {
    if cs == [] then [] else (if cs[0].fault.Lost? then [m] else []) + Copies(cs[1..], m)
  }

  lemma TryOne(s: Shared, p: Pid, pc: Pc, c: Choice)
    requires pc.Publish? && !c.fault.Fine? && !c.cancel
    ensures var s' := Step(s, p, pc, c);
            && s'.t == s.t && s'.cfg == s.cfg && s'.h.log == s.h.log + (if c.fault.Lost? then [pc.msg] else [])
            && StepPc(s, p, pc, c) == if pc.attempt < s.cfg.attempts then pc.(attempt := pc.attempt + 1) else FailRead(pc.msg.id, Token(p, c.draw), pc.rest)
  {
  }

  lemma CopiesMore(log: seq<Message>, cs: seq<Choice>, m: Message)
    requires cs != []
    ensures log + Copies(cs, m) == log + (if cs[0].fault.Lost? then [m] else []) + Copies(cs[1..], m)
  {
  }

  /** The round goes on as long as attempts are left. */
  lemma {:induction false} RoundGoesOn(s: Shared, p: Pid, pc: Pc, cs: seq<Choice>)
    requires pc.Publish? && Unanswered(cs) && pc.attempt + |cs| <= s.cfg.attempts
    ensures var (s', pc') := Within(s, p, pc, cs, Trying);
            s'.t == s.t && s'.cfg == s.cfg && pc' == pc.(attempt := pc.attempt + |cs|) && s'.h.log == s.h.log + Copies(cs, pc.msg)
    decreases |cs|
  {
    if cs != [] {
      TryOne(s, p, pc, cs[0]);
      CopiesMore(s.h.log, cs, pc.msg);
      RoundGoesOn(Step(s, p, pc, cs[0]), p, StepPc(s, p, pc, cs[0]), cs[1..]);
    }
  }

  /** A round that nobody answers makes exactly the configured number of attempts before it fails, and leaves
      on the bus exactly the copies whose acknowledgement was lost. */
  lemma SoloRound(s: Shared, p: Pid, msg: Message, rest: seq<Record>, cs: seq<Choice>, last: Choice)
    requires |cs| + 1 == s.cfg.attempts && Unanswered(cs) && !last.fault.Fine? && !last.cancel
    ensures var (s1, pc1) := Within(s, p, Publish(msg, 1, rest), cs, Trying);
            && pc1 == Publish(msg, s.cfg.attempts, rest)
            && var s2 := Step(s1, p, pc1, last);
               && StepPc(s1, p, pc1, last) == FailRead(msg.id, Token(p, last.draw), rest)
               && s2.t == s.t && s2.h.log == s.h.log + Copies(cs, msg) + (if last.fault.Lost? then [msg] else [])
  {
    RoundGoesOn(s, p, Publish(msg, 1, rest), cs);
    var s1 := Within(s, p, Publish(msg, 1, rest), cs, Trying).0;
    TryOne(s1, p, Publish(msg, s.cfg.attempts, rest), last);
  }

  /** An acknowledged attempt is on the bus once more and leads to the mark, with the id of the answer. */
  lemma RoundAnswered(s: Shared, p: Pid, pc: Pc, c: Choice)
    requires pc.Publish? && c.fault.Fine?
    ensures Step(s, p, pc, c).h.log == s.h.log + [pc.msg]
    ensures StepPc(s, p, pc, c) == MarkRead(pc.msg.id, c.text, pc.rest)
  {
  }

  /** A caller that gives up during an unanswered attempt ends the round. */
  lemma RoundCancelled(s: Shared, p: Pid, pc: Pc, c: Choice)
    requires pc.Publish? && !c.fault.Fine? && c.cancel
    ensures StepPc(s, p, pc, c) == FailRead(pc.msg.id, Token(p, c.draw), pc.rest)
  {
  }
}
