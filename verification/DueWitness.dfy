/** A concrete run in which a relay picks an event up before its next attempt is due: the published mark has
    deleted the retry row, and the relay still has the event on a page it read before. */
module DueWitness {
  import opened Schema
  import opened Statements
  import opened Protocol
  import opened Invariant
  import opened Moves
  import opened Guarantees
  import opened Runs
  import opened LeaseWitness
  import opened FenceWitness
  import opened DueTimes
  import opened Backoff

  /** A relay that has read the row of event 1 and not yet looked at its retry state. */
  const LOOKING: Pc := RelayCheck([Slot(0, 1)], map[Slot(0, 1) := BODY], [], 1)

  /** A relay reads its page and stops there. */
  lemma Lists(w: World, run: seq<Event>, cfg: Config, procs: map<Pid, Pc>) returns (run': seq<Event>)
    requires Legal(w, run) && 2 !in procs && Shows(After(w, run), cfg, FREE, {1}, procs)
    ensures Legal(w, run') && Shows(After(w, run'), cfg, FREE, {1}, procs[2 := LOOKING])
  {
    var b, e := Begin(2, RelayTask(1)), Move(2, At(10));
    Extend(w, run, b);
    run' := run + [b];
    Fetched(After(w, run'), cfg, procs, 2);
    Extend(w, run', e);
    run' := run' + [e];
  }

  lemma ShowsCounts(w: World, cfg: Config, procs: map<Pid, Pc>)
    requires Shows(w, cfg, FREE, {1}, procs)
    ensures Counts(w, cfg, procs, 0, EPOCH, {})
  {
  }

  /** The publisher, a relay with event 1 in its batch, and a relay with event 1 on its page. */
  lemma PageRead(cfg: Config) returns (run: seq<Event>)
    ensures Legal(Initial(cfg), run) && Counts(After(Initial(cfg), run), cfg, Three(PUB, QUEUED, LOOKING)[0 := PUB], 0, EPOCH, {})
  {
    run := LeaseWitness.Stored(cfg);
    run := Ready(Initial(cfg), run, cfg, map[0 := PUB], 1);
    run := Lists(Initial(cfg), run, cfg, map[0 := PUB][1 := QUEUED]);
    ShowsCounts(After(Initial(cfg), run), cfg, map[0 := PUB][1 := QUEUED][2 := LOOKING]);
    assert map[0 := PUB][1 := QUEUED][2 := LOOKING] == Three(PUB, QUEUED, LOOKING)[0 := PUB];
  }

  /** The publisher has failed and is about to record it. */
  lemma AboutToRecord(cfg: Config) returns (run: seq<Event>, first: Option<Time>)
    ensures Legal(Initial(cfg), run)
    ensures Counts(After(Initial(cfg), run), cfg, Three(PUB, QUEUED, LOOKING)[0 := FailWrite(1, Token(0, 0), 1, first, [])], 0, EPOCH, {Token(0, 0)})
  {
    var w, procs := Initial(cfg), Three(PUB, QUEUED, LOOKING);
    run := PageRead(cfg);
    RefusalMoves(After(w, run), cfg, procs, 0, 0, EPOCH, {});
    Extend(w, run, Move(0, REFUSED));
    run := run + [Move(0, REFUSED)];
    assert {} + {Token(0, 0)} == {Token(0, 0)};
    first := FenceWitness.ReadMoves(After(w, run), cfg, procs, 0, 0, EPOCH, {Token(0, 0)}, 11);
    Extend(w, run, Move(0, At(11)));
    run := run + [Move(0, At(11))];
  }

  // ---------- the other relay publishes and marks ----------

  lemma SentMoves(w: World, cfg: Config, procs: map<Pid, Pc>, count: nat, until: Time, tokens: set<Token>)
    requires Counts(w, cfg, procs[1 := PUB], count, until, tokens) && Token(1, 0) !in tokens
    ensures var e := Move(1, At(12)); Enabled(w, e) && Counts(Next(w, e), cfg, procs[1 := MarkRead(1, "", [])], count, until, tokens)
  {
    assert procs[1 := PUB][1 := MarkRead(1, "", [])] == procs[1 := MarkRead(1, "", [])];
  }

  lemma FoundMoves(w: World, cfg: Config, procs: map<Pid, Pc>, count: nat, until: Time, tokens: set<Token>) returns (at: Time)
    requires Counts(w, cfg, procs[1 := MarkRead(1, "", [])], count, until, tokens)
    ensures var e := Move(1, At(12)); Enabled(w, e) && Counts(Next(w, e), cfg, procs[1 := MarkBatch(1, "", at, [])], count, until, tokens)
  {
    at := w.s.t.outbox[1].occurredAt;
    var marking := MarkBatch(1, "", at, []);
    assert procs[1 := MarkRead(1, "", [])][1 := marking] == procs[1 := marking];
  }

  /** Event 1 has no retry row, and relay 2 still has it on its page. */
  ghost predicate StillListed(w: World) {
    1 !in w.s.t.retry && 2 in w.procs && w.procs[2] == LOOKING
  }

  lemma MarkMoves(w: World, cfg: Config, procs: map<Pid, Pc>, count: nat, until: Time, tokens: set<Token>, at: Time)
    requires Counts(w, cfg, procs[1 := MarkBatch(1, "", at, [])], count, until, tokens) && 2 in procs && procs[2] == LOOKING
    ensures var e := Move(1, At(12)); Enabled(w, e) && StillListed(Next(w, e))
  {
    StepTables(w.s, 1, w.procs[1], At(12));
  }

  lemma Marked(w: World, cfg: Config, pc: Pc, tokens: set<Token>) returns (run: seq<Event>)
    requires Counts(w, cfg, Three(pc, QUEUED, LOOKING), 1, EPOCH, tokens) && Token(1, 0) !in tokens
    ensures Legal(w, run) && StillListed(After(w, run))
  {
    var procs, until, e := Three(pc, QUEUED, LOOKING), 12 + cfg.leaseMs, Move(1, At(12));
    ClaimMoves(w, cfg, procs, 1, 1, tokens, 12);
    One(w, e);
    run := [e];
    SentMoves(After(w, run), cfg, procs, 1, until, tokens);
    Extend(w, run, e);
    run := run + [e];
    var at := FoundMoves(After(w, run), cfg, procs, 1, until, tokens);
    Extend(w, run, e);
    run := run + [e];
    MarkMoves(After(w, run), cfg, procs, 1, until, tokens, at);
    Extend(w, run, e);
    run := run + [e];
  }

  lemma Picked(w: World)
    requires StillListed(w)
    ensures var e := Move(2, At(12)); Enabled(w, e) && PicksUp(w, e, 1)
  {
    CheckMoves(w.s, 2, LOOKING, At(12));
  }

  lemma RecordedDue(w: World, cfg: Config, c: Settings, procs: map<Pid, Pc>, first: Option<Time>)
    requires Inv(w) && cfg.policy == PolicyOf(c) && Validated(c) && Fits(c)
    requires Counts(w, cfg, procs[0 := FailWrite(1, Token(0, 0), 1, first, [])], 0, EPOCH, {Token(0, 0)})
    ensures var e := Move(0, At(11)); Enabled(w, e) && RecordsFailure(w, e, 1) && DueFrom(Next(w, e).s.t, 1, 21)
  {
    FailWriteDue(w, Move(0, At(11)), 1, c);
  }

  /** For every validated configuration that fits: a failure of event 1 is recorded, another relay publishes and
      marks the event, and a relay that had read its page before picks the event up although the next attempt
      that the failure wrote is still to come. */
  lemma MarkedStillScanned(cfg: Config, c: Settings) returns (before: seq<Event>, fail: Event, between: seq<Event>, pick: Event)
    requires Sound(cfg) && cfg.policy == PolicyOf(c) && Validated(c) && Fits(c)
    ensures Legal(Initial(cfg), before)
    ensures var w := After(Initial(cfg), before);
            && Enabled(w, fail) && RecordsFailure(w, fail, 1) && Legal(Next(w, fail), between)
            && var w' := After(Next(w, fail), between);
               Enabled(w', pick) && PicksUp(w', pick, 1) && DueFrom(Next(w, fail).s.t, 1, pick.c.now + 1)
  {
    var first;
    before, first := AboutToRecord(cfg);
    var w, procs := After(Initial(cfg), before), Three(PUB, QUEUED, LOOKING);
    Reachable(cfg, before);
    fail, pick := Move(0, At(11)), Move(2, At(12));
    RecordedDue(w, cfg, c, procs, first);
    RecordMoves(w, cfg, procs, 0, 1, first, 0, EPOCH, {Token(0, 0)}, 11);
    ThreeAt(PUB, QUEUED, LOOKING, Recorded(cfg, 1, 11));
    between := Marked(Next(w, fail), cfg, Recorded(cfg, 1, 11), {Token(0, 0)});
    Picked(After(Next(w, fail), between));
  }
}
