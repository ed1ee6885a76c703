/** What stream consumers write out: exactly the deliveries they claim first, and those without an id. */
module Consumers {
  import opened Schema
  import opened Statements
  import opened Protocol
  import opened Invariant
  import opened Moves
  import opened Guarantees
  import opened Runs

  /** Nobody has claimed the delivery for this consumer; one without an id needs no claim. */
  predicate FirstFor(t: Tables, consumer: string, d: Delivery) {
    d.message == NoId || InboxKey(consumer, d.message) !in t.inbox
  }

  /** p is about to claim a delivery, or to write it out. */
  predicate Claiming(w: World, p: Pid, consumer: string, d: Delivery) {
    p in w.procs && w.procs[p] == ClaimMessage(consumer, d)
  }

  predicate Writing(w: World, p: Pid, consumer: string, d: Delivery) {
    p in w.procs && w.procs[p] == Emit(consumer, d)
  }

  predicate Waiting(w: World, p: Pid, consumer: string) {
    p in w.procs && w.procs[p] == Receive(consumer)
  }

  // ---------- one move ----------

  /** The claim itself writes nothing out. It leads to writing the delivery if and only if its answer arrives
      and it was the first, or the delivery has no id; a first claim that executes keeps its time. */
  lemma ClaimExact(w: World, p: Pid, c: Choice, consumer: string, d: Delivery)
    requires Claiming(w, p, consumer, d)
    ensures var w' := Next(w, Move(p, c));
            && w'.s.h.emitted == w.s.h.emitted
            && (c.fault.Fine? && FirstFor(w.s.t, consumer, d) ==> Writing(w', p, consumer, d))
            && (!(c.fault.Fine? && FirstFor(w.s.t, consumer, d)) ==> Waiting(w', p, consumer))
            && (!c.fault.Refused? && d.message != NoId && FirstFor(w.s.t, consumer, d) ==>
                  w'.s.t.inbox == w.s.t.inbox[InboxKey(consumer, d.message) := c.now])
            && (c.fault.Refused? || d.message == NoId || !FirstFor(w.s.t, consumer, d) ==> w'.s.t.inbox == w.s.t.inbox)
  {
    StepTables(w.s, p, w.procs[p], c);
  }

  /** Writing appends exactly the delivery to what was written out, unless it is refused. */
  lemma WriteExact(w: World, p: Pid, c: Choice, consumer: string, d: Delivery)
    requires Writing(w, p, consumer, d)
    ensures var w' := Next(w, Move(p, c));
            && w'.s.t == w.s.t && Waiting(w', p, consumer)
            && w'.s.h.emitted == if c.fault.Refused? then w.s.h.emitted else w.s.h.emitted + [Emission(consumer, d)]
  {
    StepTables(w.s, p, w.procs[p], c);
  }

  /** A delivery that arrives is claimed next. */
  lemma ReceiveExact(w: World, p: Pid, c: Choice, consumer: string)
    requires Waiting(w, p, consumer) && Enabled(w, Move(p, c))
    ensures var w' := Next(w, Move(p, c));
            w'.s.h.emitted == w.s.h.emitted && (c.fault.Fine? ==> Claiming(w', p, consumer, c.delivery))
  {
  }

  /** No other move writes anything out. */
  lemma OnlyWritesEmit(w: World, e: Event)
    requires Enabled(w, e) && !(Executes(w, e) && w.procs[e.p].Emit?)
    ensures Next(w, e).s.h.emitted == w.s.h.emitted
  {
    if e.Move? { EmittedStep(w.s, e.p, w.procs[e.p], e.c); }
  }

  lemma EmittedStep(s: Shared, p: Pid, pc: Pc, c: Choice)
    requires c.fault.Refused? || !pc.Emit?
    ensures Step(s, p, pc, c).h.emitted == s.h.emitted
  {
    if pc.Publish? {
      AttemptEmits(s, p, pc, c);
    } else if !c.fault.Refused? {
      NoteEmits(s, p, pc);
      ReportEmits(Perform(s, p, pc, c), pc);
    }
  }

  lemma AttemptEmits(s: Shared, p: Pid, pc: Pc, c: Choice)
    requires pc.Publish?
    ensures Attempt(s, p, pc, c).h.emitted == s.h.emitted
  {
    var s1 := Offer(s, pc.msg, c.fault.Refused?);
    assert s1.h.emitted == s.h.emitted && GiveUp(s1, pc.msg.id, Token(p, c.draw)).h.emitted == s1.h.emitted;
  }

  lemma NoteEmits(s: Shared, p: Pid, pc: Pc)
    requires !pc.Emit?
    ensures Note(s, p, pc).emitted == s.h.emitted
  {
  }

  lemma ReportEmits(s: Shared, pc: Pc)
    ensures Report(s, pc).emitted == s.h.emitted
  {
  }

  // ---------- whole runs ----------

  /** How often a consumer name has written a message id. */
  function Times(emitted: seq<Emission>, key: InboxKey): nat {
    if emitted == [] then 0
    else Times(emitted[..|emitted| - 1], key) + if EmissionKey(emitted[|emitted| - 1]) == key then 1 else 0
  }

  lemma {:induction false} NeverTwice(emitted: seq<Emission>, key: InboxKey, i: nat)
    requires forall a, b :: 0 <= a < b < |emitted| ==> EmissionKey(emitted[a]) != key || EmissionKey(emitted[b]) != key
    requires i < |emitted| && EmissionKey(emitted[i]) == key
    ensures Times(emitted, key) == 1
  {
    var n := |emitted| - 1;
    if i < n {
      NeverTwice(emitted[..n], key, i);
    } else {
      NotThere(emitted[..n], key);
    }
  }

  lemma {:induction false} NotThere(emitted: seq<Emission>, key: InboxKey)
    requires forall a :: 0 <= a < |emitted| ==> EmissionKey(emitted[a]) != key
    ensures Times(emitted, key) == 0
  {
    if emitted != [] { NotThere(emitted[..|emitted| - 1], key); }
  }

  lemma {:induction false} EmittedGrows(w: World, run: seq<Event>)
    requires Legal(w, run)
    ensures w.s.h.emitted <= After(w, run).s.h.emitted
    decreases |run|
  {
    if run != [] {
      EmittedNext(w, run[0]);
      EmittedGrows(Next(w, run[0]), run[1..]);
    }
  }

  lemma EmittedNext(w: World, e: Event)
    requires Enabled(w, e)
    ensures w.s.h.emitted <= Next(w, e).s.h.emitted
  {
    if Executes(w, e) && w.procs[e.p].Emit? {
      WriteExact(w, e.p, e.c, w.procs[e.p].consumer, w.procs[e.p].delivery);
    } else {
      OnlyWritesEmit(w, e);
    }
  }

  lemma {:induction false} ProcessWaits(w: World, run: seq<Event>, p: Pid)
    requires Legal(w, run) && p in w.procs && forall i :: 0 <= i < |run| ==> run[i].p != p
    ensures p in After(w, run).procs && After(w, run).procs[p] == w.procs[p]
    decreases |run|
  {
    if run != [] {
      assert run[0].p != p && forall i :: 0 <= i < |run[1..]| ==> run[1..][i] == run[i + 1];
      ProcessWaits(Next(w, run[0]), run[1..], p);
    }
  }

  lemma NoPair(s: Shared, key: InboxKey)
    requires SharedInv(s) && key.message != NoId
    ensures forall a, b :: 0 <= a < b < |s.h.emitted| ==> EmissionKey(s.h.emitted[a]) != key || EmissionKey(s.h.emitted[b]) != key
  {
  }

  lemma OnceWritten(w: World, later: seq<Event>, key: InboxKey, i: nat)
    requires Inv(w) && Legal(w, later) && i < |w.s.h.emitted| && EmissionKey(w.s.h.emitted[i]) == key && key.message != NoId
    ensures Times(After(w, later).s.h.emitted, key) == 1
  {
    EmittedGrows(w, later);
    RunKeeps(w, later);
    var emitted := After(w, later).s.h.emitted;
    assert emitted[i] == w.s.h.emitted[i];
    NoPair(After(w, later).s, key);
    NeverTwice(emitted, key, i);
  }

  lemma ClaimedWaits(w: World, p: Pid, claim: Choice, between: seq<Event>, consumer: string, d: Delivery)
    requires Inv(w) && Claiming(w, p, consumer, d) && FirstFor(w.s.t, consumer, d) && claim.fault.Fine?
    requires Legal(Next(w, Move(p, claim)), between) && forall i :: 0 <= i < |between| ==> between[i].p != p
    ensures var w1 := After(Next(w, Move(p, claim)), between); Inv(w1) && Writing(w1, p, consumer, d)
  {
    ClaimExact(w, p, claim, consumer, d);
    NextKeeps(w, Move(p, claim));
    ProcessWaits(Next(w, Move(p, claim)), between, p);
    RunKeeps(Next(w, Move(p, claim)), between);
  }

  lemma WrittenForGood(w: World, p: Pid, write: Choice, later: seq<Event>, consumer: string, d: Delivery)
    requires Inv(w) && Writing(w, p, consumer, d) && !write.fault.Refused? && d.message != NoId && Legal(Next(w, Move(p, write)), later)
    ensures var emitted := After(Next(w, Move(p, write)), later).s.h.emitted;
            Emission(consumer, d) in emitted && Times(emitted, InboxKey(consumer, d.message)) == 1
  {
    var w2, i := Next(w, Move(p, write)), |w.s.h.emitted|;
    WriteExact(w, p, write, consumer, d);
    NextKeeps(w, Move(p, write));
    assert w2.s.h.emitted[i] == Emission(consumer, d);
    OnceWritten(w2, later, InboxKey(consumer, d.message), i);
    EmittedGrows(w2, later);
    assert After(w2, later).s.h.emitted[i] == Emission(consumer, d);
  }

  /** Exactly once: when the first claim of a message id by a consumer name is answered and its process then
      writes the message, then in every later world of every run that consumer name has written that id
      exactly once, on whatever node, however often the bus delivers it. */
  lemma ExactlyOnceEmission(cfg: Config, before: seq<Event>, p: Pid, claim: Choice, between: seq<Event>, write: Choice,
                            later: seq<Event>, consumer: string, d: Delivery, w: World, w1: World, w2: World)
    requires Sound(cfg) && Legal(Initial(cfg), before) && w == After(Initial(cfg), before) && d.message != NoId
    requires Claiming(w, p, consumer, d) && FirstFor(w.s.t, consumer, d) && claim.fault.Fine?
    requires Legal(Next(w, Move(p, claim)), between) && (forall i :: 0 <= i < |between| ==> between[i].p != p)
    requires w1 == After(Next(w, Move(p, claim)), between)
    requires Enabled(w1, Move(p, write)) && !write.fault.Refused? && w2 == Next(w1, Move(p, write)) && Legal(w2, later)
    ensures Emission(consumer, d) in After(w2, later).s.h.emitted
    ensures Times(After(w2, later).s.h.emitted, InboxKey(consumer, d.message)) == 1
  {
    Reachable(cfg, before);
    ClaimedWaits(w, p, claim, between, consumer, d);
    WrittenForGood(w1, p, write, later, consumer, d);
  }

  // ---------- a run with one emission ----------

  const TEXT: Delivery := Delivery(Foreign("m"), "s", "x")
  const INBOX: InboxKey := InboxKey("c", Foreign("m"))

  /** A fine reply; it brings the message when one is awaited. */
  const ARRIVES: Choice := Choice(12, Fine, false, 0, "", TEXT)

  /** Consumer process 5 stands at pc; what is claimed and what is written. */
  ghost predicate Stage(w: World, pc: Pc, inbox: map<InboxKey, Time>, emitted: seq<Emission>) {
    5 in w.procs && w.procs[5] == pc && w.s.t.inbox == inbox && w.s.h.emitted == emitted
  }

  lemma Delivered(w: World, inbox: map<InboxKey, Time>, emitted: seq<Emission>)
    requires Stage(w, Receive("c"), inbox, emitted)
    ensures var e := Move(5, ARRIVES); Enabled(w, e) && Stage(Next(w, e), ClaimMessage("c", TEXT), inbox, emitted)
  {
    ReceiveExact(w, 5, ARRIVES, "c");
    StepTables(w.s, 5, w.procs[5], ARRIVES);
  }

  lemma ClaimedFirst(w: World)
    requires Stage(w, ClaimMessage("c", TEXT), map[], [])
    ensures var e := Move(5, ARRIVES); Enabled(w, e) && Stage(Next(w, e), Emit("c", TEXT), map[INBOX := 12], [])
  {
    ClaimExact(w, 5, ARRIVES, "c", TEXT);
  }

  lemma WrittenOut(w: World)
    requires Stage(w, Emit("c", TEXT), map[INBOX := 12], [])
    ensures var e := Move(5, ARRIVES); Enabled(w, e) && Stage(Next(w, e), Receive("c"), map[INBOX := 12], [Emission("c", TEXT)])
  {
    WriteExact(w, 5, ARRIVES, "c", TEXT);
  }

  lemma FoundClaimed(w: World)
    requires Stage(w, ClaimMessage("c", TEXT), map[INBOX := 12], [Emission("c", TEXT)])
    ensures var e := Move(5, ARRIVES); Enabled(w, e) && Stage(Next(w, e), Receive("c"), map[INBOX := 12], [Emission("c", TEXT)])
  {
    ClaimExact(w, 5, ARRIVES, "c", TEXT);
  }

  /** A message is delivered twice to a consumer: it claims it and writes it out the first time, and finds the
      claim the second time. */
  lemma RedeliveredOnce(cfg: Config)
    ensures var b, m := Begin(5, ConsumeTask("c")), Move(5, ARRIVES);
            && Legal(Initial(cfg), [b] + [m] + [m] + [m] + [m] + [m])
            && Stage(After(Initial(cfg), [b] + [m] + [m] + [m] + [m] + [m]), Receive("c"), map[INBOX := 12], [Emission("c", TEXT)])
  {
    var w, b, m := Initial(cfg), Begin(5, ConsumeTask("c")), Move(5, ARRIVES);
    One(w, b);
    var run := [b];
    assert Stage(After(w, run), Receive("c"), map[], []);
    Delivered(After(w, run), map[], []);
    Extend(w, run, m);
    run := run + [m];
    ClaimedFirst(After(w, run));
    Extend(w, run, m);
    run := run + [m];
    WrittenOut(After(w, run));
    Extend(w, run, m);
    run := run + [m];
    Delivered(After(w, run), map[INBOX := 12], [Emission("c", TEXT)]);
    Extend(w, run, m);
    run := run + [m];
    FoundClaimed(After(w, run));
    Extend(w, run, m);
  }
}
