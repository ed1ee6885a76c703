/** Two concrete runs: a publisher that gives up late reopens an event that is already published, and a
    failure that read its count early is recorded below the limit after a replay. */
module FenceWitness {
  import opened Schema
  import opened Statements
  import opened Protocol
  import opened Guarantees
  import opened QuarantineReplay
  import opened Runs
  import opened LeaseWitness

  /** Where the publisher, the two relays and, if any, the replay stand; what the rows of event 1 say. */
  ghost predicate Stands(w: World, cfg: Config, procs: map<Pid, Pc>, retry: map<EventId, RetryRow>, state: PublishState, tokens: set<Token>) {
    && w.s.cfg == cfg && w.procs == procs && w.s.t.retry == retry
    && 1 in w.s.t.outbox && w.s.t.outbox[1].state == state && Tokens(w.s.h.issued, 1) == tokens
  }

  function Three(a: Pc, b: Pc, c: Pc): map<Pid, Pc> {
    map[0 := a, 1 := b, 2 := c]
  }

  const PUB: Pc := Publish(MSG, 1, [])
  const QUEUED: Pc := RelayClaim([REC])

  lemma Prepared(cfg: Config) returns (run: seq<Event>)
    ensures Legal(Initial(cfg), run) && Stands(After(Initial(cfg), run), cfg, Three(PUB, QUEUED, QUEUED), map[1 := FREE], Pending, {})
  {
    run := BothReady(cfg);
  }

  // ---------- a late failure reopens a published event ----------

  lemma Claimed(w: World, cfg: Config)
    requires Stands(w, cfg, Three(PUB, QUEUED, QUEUED), map[1 := FREE], Pending, {})
    ensures var e := Move(1, At(10));
            Enabled(w, e) && Stands(Next(w, e), cfg, Three(PUB, PUB, QUEUED), map[1 := Leased(cfg)], Pending, {})
  {
    assert [REC][1..] == [];
  }

  lemma Sent(w: World, cfg: Config, retry: map<EventId, RetryRow>)
    requires Stands(w, cfg, Three(PUB, PUB, QUEUED), retry, Pending, {})
    ensures var e := Move(1, At(11));
            Enabled(w, e) && Stands(Next(w, e), cfg, Three(PUB, MarkRead(1, "", []), QUEUED), retry, Pending, {})
  {
  }

  lemma MarkFound(w: World, cfg: Config, retry: map<EventId, RetryRow>) returns (at: Time)
    requires Stands(w, cfg, Three(PUB, MarkRead(1, "", []), QUEUED), retry, Pending, {})
    ensures var e := Move(1, At(11));
            Enabled(w, e) && Stands(Next(w, e), cfg, Three(PUB, MarkBatch(1, "", at, []), QUEUED), retry, Pending, {})
  {
    at := w.s.t.outbox[1].occurredAt;
  }

  lemma MarkDone(w: World, cfg: Config, row: RetryRow, at: Time)
    requires Stands(w, cfg, Three(PUB, MarkBatch(1, "", at, []), QUEUED), map[1 := row], Pending, {})
    ensures var e := Move(1, At(11)); Enabled(w, e) && Stands(Next(w, e), cfg, Three(PUB, Done, QUEUED), map[], Published, {})
  {
    assert map[1 := row] - {1} == map[];
  }

  lemma GaveUp(w: World, cfg: Config)
    requires Stands(w, cfg, Three(PUB, Done, QUEUED), map[], Published, {})
    ensures var e := Move(0, REFUSED);
            Enabled(w, e) && Stands(Next(w, e), cfg, Three(FailRead(1, Token(0, 0), []), Done, QUEUED), map[], Published, {Token(0, 0)})
  {
  }

  lemma NothingRead(w: World, cfg: Config, tokens: set<Token>)
    requires Stands(w, cfg, Three(FailRead(1, Token(0, 0), []), Done, QUEUED), map[], Published, tokens)
    ensures var e := Move(0, At(12));
            Enabled(w, e) && Stands(Next(w, e), cfg, Three(FailWrite(1, Token(0, 0), 1, None, []), Done, QUEUED), map[], Published, tokens)
  {
  }

  lemma Reopened(w: World, cfg: Config, tokens: set<Token>)
    requires Stands(w, cfg, Three(FailWrite(1, Token(0, 0), 1, None, []), Done, QUEUED), map[], Published, tokens)
    ensures var e := Move(0, At(12)); var w' := Next(w, e);
            && Enabled(w, e) && Reopens(w, e, 1) && 2 in w'.procs && w'.procs[2] == QUEUED
            && 1 in w'.s.t.outbox && w'.s.t.outbox[1].state == Published
            && 1 in w'.s.t.retry && w'.s.t.retry[1].leaseUntil == Some(EPOCH)
  {
  }

  /** Event 1 is published by relay 1; the publisher that appended it is still trying. */
  lemma PublishedByRelay(cfg: Config) returns (run: seq<Event>)
    ensures Legal(Initial(cfg), run) && Stands(After(Initial(cfg), run), cfg, Three(PUB, Done, QUEUED), map[], Published, {})
  {
    var w := Initial(cfg);
    run := Prepared(cfg);
    Claimed(After(w, run), cfg);
    Extend(w, run, Move(1, At(10)));
    run := run + [Move(1, At(10))];
    var e := Move(1, At(11));
    Sent(After(w, run), cfg, map[1 := Leased(cfg)]);
    Extend(w, run, e);
    run := run + [e];
    var at := MarkFound(After(w, run), cfg, map[1 := Leased(cfg)]);
    Extend(w, run, e);
    run := run + [e];
    MarkDone(After(w, run), cfg, Leased(cfg), at);
    Extend(w, run, e);
    run := run + [e];
  }

  /** The publisher gives up and finds no retry row. */
  lemma LateFailure(cfg: Config) returns (run: seq<Event>)
    ensures Legal(Initial(cfg), run)
    ensures Stands(After(Initial(cfg), run), cfg, Three(FailWrite(1, Token(0, 0), 1, None, []), Done, QUEUED), map[], Published, {Token(0, 0)})
  {
    var w := Initial(cfg);
    run := PublishedByRelay(cfg);
    GaveUp(After(w, run), cfg);
    Extend(w, run, Move(0, REFUSED));
    run := run + [Move(0, REFUSED)];
    NothingRead(After(w, run), cfg, {Token(0, 0)});
    Extend(w, run, Move(0, At(12)));
    run := run + [Move(0, At(12))];
  }

  /** Relay 1 publishes and marks event 1. The publisher of event 1 then gives up, finds no retry row and
      records its failure, and relay 2 claims the published event from its old batch. */
  lemma FenceLifted(cfg: Config) returns (run: seq<Event>, e: Event, second: Event)
    ensures Legal(Initial(cfg), run)
    ensures var w := After(Initial(cfg), run);
            && Fenced(w.s.t, 1) && Enabled(w, e) && Reopens(w, e, 1)
            && var w' := Next(w, e);
               1 in w'.s.t.outbox && w'.s.t.outbox[1].state == Published && Enabled(w', second) && Claims(w', second, 1)
  {
    run := LateFailure(cfg);
    e, second := Move(0, At(12)), Move(2, At(13));
    Reopened(After(Initial(cfg), run), cfg, {Token(0, 0)});
  }

  // ---------- a low count recorded after a replay ----------

  /** The retry row of event 1 has this count and a free lease or one until `until`. */
  ghost predicate Counts(w: World, cfg: Config, procs: map<Pid, Pc>, count: nat, until: Time, tokens: set<Token>) {
    && w.s.cfg == cfg && w.procs == procs && 1 in w.s.t.outbox && Tokens(w.s.h.issued, 1) == tokens
    && 1 in w.s.t.retry && w.s.t.retry[1].retryCount == count && w.s.t.retry[1].leaseUntil == Some(until)
  }

  /** The publisher has read count 0 and is about to record its failure as the first. */
  function Early(first: Option<Time>): Pc {
    FailWrite(1, Token(0, 0), 1, first, [])
  }

  function Reading(p: Pid): Pc {
    FailRead(1, Token(p, 0), [])
  }

  lemma ClaimMoves(w: World, cfg: Config, procs: map<Pid, Pc>, p: Pid, count: nat, tokens: set<Token>, now: Time)
    requires Counts(w, cfg, procs, count, EPOCH, tokens) && p in procs && procs[p] == QUEUED && now > EPOCH
    ensures var e := Move(p, At(now)); Enabled(w, e) && Counts(Next(w, e), cfg, procs[p := PUB], count, now + cfg.leaseMs, tokens)
  {
    assert [REC][1..] == [];
  }

  lemma RefusalMoves(w: World, cfg: Config, procs: map<Pid, Pc>, p: Pid, count: nat, until: Time, tokens: set<Token>)
    requires Counts(w, cfg, procs[p := PUB], count, until, tokens) && Token(p, 0) !in tokens
    ensures var e := Move(p, REFUSED);
            Enabled(w, e) && Counts(Next(w, e), cfg, procs[p := Reading(p)], count, until, tokens + {Token(p, 0)})
  {
    assert procs[p := PUB][p := Reading(p)] == procs[p := Reading(p)];
  }

  lemma ReadMoves(w: World, cfg: Config, procs: map<Pid, Pc>, p: Pid, count: nat, until: Time, tokens: set<Token>, now: Time) returns (first: Option<Time>)
    requires Counts(w, cfg, procs[p := Reading(p)], count, until, tokens)
    ensures var e := Move(p, At(now));
            Enabled(w, e) && Counts(Next(w, e), cfg, procs[p := FailWrite(1, Token(p, 0), count + 1, first, [])], count, until, tokens)
  {
    first := w.s.t.retry[1].firstFailed;
    var writing := FailWrite(1, Token(p, 0), count + 1, first, []);
    assert procs[p := Reading(p)][p := writing] == procs[p := writing];
  }

  /** Where a failure recorded with this count leads. */
  function Recorded(cfg: Config, count: nat, now: Time): Pc {
    if count >= cfg.policy.quarantineAfter then DeadRead(1, count, now, "", []) else Done
  }

  lemma RecordMoves(w: World, cfg: Config, procs: map<Pid, Pc>, p: Pid, count: nat, first: Option<Time>, was: nat, until: Time, tokens: set<Token>, now: Time)
    requires Counts(w, cfg, procs[p := FailWrite(1, Token(p, 0), count, first, [])], was, until, tokens)
    ensures var e := Move(p, At(now)); Enabled(w, e) && Counts(Next(w, e), cfg, procs[p := Recorded(cfg, count, now)], count, EPOCH, tokens)
  {
    assert procs[p := FailWrite(1, Token(p, 0), count, first, [])][p := Recorded(cfg, count, now)] == procs[p := Recorded(cfg, count, now)];
  }

  lemma ThreeAt(a: Pc, b: Pc, c: Pc, x: Pc)
    ensures Three(a, b, c)[0 := x] == Three(x, b, c) && Three(a, b, c)[1 := x] == Three(a, x, c) && Three(a, b, c)[2 := x] == Three(a, b, x)
  {
  }

  lemma PreparedCounts(cfg: Config) returns (run: seq<Event>)
    ensures Legal(Initial(cfg), run) && Counts(After(Initial(cfg), run), cfg, Three(PUB, QUEUED, QUEUED)[0 := PUB], 0, EPOCH, {})
  {
    run := Prepared(cfg);
    ThreeAt(PUB, QUEUED, QUEUED, PUB);
  }

  lemma EarlyRefused(cfg: Config) returns (run: seq<Event>)
    ensures Legal(Initial(cfg), run) && Counts(After(Initial(cfg), run), cfg, Three(PUB, QUEUED, QUEUED)[0 := Reading(0)], 0, EPOCH, {} + {Token(0, 0)})
  {
    run := PreparedCounts(cfg);
    RefusalMoves(After(Initial(cfg), run), cfg, Three(PUB, QUEUED, QUEUED), 0, 0, EPOCH, {});
    Extend(Initial(cfg), run, Move(0, REFUSED));
    run := run + [Move(0, REFUSED)];
  }

  /** The publisher is refused and reads the count. */
  lemma EarlyRead(cfg: Config) returns (run: seq<Event>, first: Option<Time>)
    ensures Legal(Initial(cfg), run) && Counts(After(Initial(cfg), run), cfg, Three(Early(first), QUEUED, QUEUED), 0, EPOCH, {} + {Token(0, 0)})
  {
    var w, procs := Initial(cfg), Three(PUB, QUEUED, QUEUED);
    run := EarlyRefused(cfg);
    first := ReadMoves(After(w, run), cfg, procs, 0, 0, EPOCH, {} + {Token(0, 0)}, 10);
    Extend(w, run, Move(0, At(10)));
    run := run + [Move(0, At(10))];
    ThreeAt(PUB, QUEUED, QUEUED, Early(first));
  }

  /** A relay claims the event and is refused by the bus. */
  lemma RelayTries(w: World, run: seq<Event>, cfg: Config, procs: map<Pid, Pc>, p: Pid, count: nat, tokens: set<Token>, now: Time) returns (run': seq<Event>)
    requires Legal(w, run) && Counts(After(w, run), cfg, procs, count, EPOCH, tokens) && p in procs && procs[p] == QUEUED
    requires now > EPOCH && Token(p, 0) !in tokens
    ensures Legal(w, run') && Counts(After(w, run'), cfg, procs[p := Reading(p)], count, now + cfg.leaseMs, tokens + {Token(p, 0)})
  {
    var e := Move(p, At(now));
    ClaimMoves(After(w, run), cfg, procs, p, count, tokens, now);
    Extend(w, run, e);
    RefusalMoves(After(w, run + [e]), cfg, procs, p, count, now + cfg.leaseMs, tokens);
    Extend(w, run + [e], Move(p, REFUSED));
    run' := run + [e] + [Move(p, REFUSED)];
  }

  /** It reads the count and records the failure. */
  lemma RelayGivesUp(w: World, run: seq<Event>, cfg: Config, procs: map<Pid, Pc>, p: Pid, count: nat, until: Time, tokens: set<Token>, now: Time) returns (run': seq<Event>)
    requires Legal(w, run) && Counts(After(w, run), cfg, procs[p := Reading(p)], count, until, tokens)
    ensures Legal(w, run') && Counts(After(w, run'), cfg, procs[p := Recorded(cfg, count + 1, now)], count + 1, EPOCH, tokens)
  {
    var e := Move(p, At(now));
    var first := ReadMoves(After(w, run), cfg, procs, p, count, until, tokens, now);
    Extend(w, run, e);
    RecordMoves(After(w, run + [e]), cfg, procs, p, count + 1, first, count, until, tokens, now);
    Extend(w, run + [e], e);
    run' := run + [e] + [e];
  }

  lemma LetterFound(w: World, cfg: Config, first: Option<Time>, count: nat, at: Time, tokens: set<Token>) returns (letter: DeadLetter)
    requires Counts(w, cfg, Three(Early(first), Done, DeadRead(1, count, at, "", [])), count, EPOCH, tokens)
    ensures var e := Move(2, At(14)); Enabled(w, e) && Counts(Next(w, e), cfg, Three(Early(first), Done, DeadBatch(1, letter, [])), count, EPOCH, tokens)
    ensures letter.row.retryCount == count
  {
    letter := DeadLetter(at, DeadRow(w.s.t.outbox[1].body, count, ""));
  }

  lemma LetterWritten(w: World, cfg: Config, first: Option<Time>, letter: DeadLetter, count: nat, tokens: set<Token>)
    requires Counts(w, cfg, Three(Early(first), Done, DeadBatch(1, letter, [])), count, EPOCH, tokens)
    ensures var e := Move(2, At(14)); var w' := Next(w, e);
            Enabled(w, e) && Counts(w', cfg, Three(Early(first), Done, Done), count, EPOCH, tokens) && 1 in w'.s.t.deadById && w'.s.t.deadById[1] == letter
  {
  }

  /** The replay of event 1 starts and reads the letter. */
  lemma ReplayStarts(w: World, cfg: Config, first: Option<Time>, letter: DeadLetter, count: nat, tokens: set<Token>) returns (run: seq<Event>)
    requires Counts(w, cfg, Three(Early(first), Done, Done), count, EPOCH, tokens) && 1 in w.s.t.deadById && w.s.t.deadById[1] == letter
    ensures Legal(w, run) && Counts(After(w, run), cfg, Three(Early(first), Done, Done)[3 := ReplayFind(1, letter, 15)], count, EPOCH, tokens)
  {
    var e1, e2 := Begin(3, ReplayTask(1)), Move(3, At(15));
    var w1 := Next(w, e1);
    assert w1.procs == Three(Early(first), Done, Done)[3 := ReplayRead(1)];
    Two(w, e1, e2);
    run := [e1, e2];
  }

  lemma ReplayEnds(w: World, cfg: Config, first: Option<Time>, letter: DeadLetter, count: nat, tokens: set<Token>) returns (run: seq<Event>)
    requires Counts(w, cfg, Three(Early(first), Done, Done)[3 := ReplayFind(1, letter, 15)], count, EPOCH, tokens)
    ensures Legal(w, run) && Counts(After(w, run), cfg, Three(Early(first), Done, Done)[3 := Done], letter.row.retryCount, EPOCH, tokens)
  {
    var e := Move(3, At(15));
    var at := ReplayFinds(w, cfg, first, letter, count, tokens);
    ReplayWrites(Next(w, e), cfg, first, letter, at, count, tokens);
    Two(w, e, e);
    run := [e, e];
  }

  lemma ReplayFinds(w: World, cfg: Config, first: Option<Time>, letter: DeadLetter, count: nat, tokens: set<Token>) returns (at: Time)
    requires Counts(w, cfg, Three(Early(first), Done, Done)[3 := ReplayFind(1, letter, 15)], count, EPOCH, tokens)
    ensures var e := Move(3, At(15));
            Enabled(w, e) && Counts(Next(w, e), cfg, Three(Early(first), Done, Done)[3 := ReplayBatch(1, letter, at, 15)], count, EPOCH, tokens)
  {
    at := w.s.t.outbox[1].occurredAt;
  }

  lemma ReplayWrites(w: World, cfg: Config, first: Option<Time>, letter: DeadLetter, at: Time, count: nat, tokens: set<Token>)
    requires Counts(w, cfg, Three(Early(first), Done, Done)[3 := ReplayBatch(1, letter, at, 15)], count, EPOCH, tokens)
    ensures var e := Move(3, At(15));
            Enabled(w, e) && Counts(Next(w, e), cfg, Three(Early(first), Done, Done)[3 := Done], letter.row.retryCount, EPOCH, tokens)
  {
  }

  /** A relay fails: it claims, is refused, and records. */
  lemma RelayFails(w: World, run: seq<Event>, cfg: Config, procs: map<Pid, Pc>, p: Pid, count: nat, tokens: set<Token>, now: Time) returns (run': seq<Event>)
    requires Legal(w, run) && Counts(After(w, run), cfg, procs, count, EPOCH, tokens) && p in procs && procs[p] == QUEUED
    requires now > EPOCH && Token(p, 0) !in tokens
    ensures Legal(w, run') && Counts(After(w, run'), cfg, procs[p := Recorded(cfg, count + 1, now)], count + 1, EPOCH, tokens + {Token(p, 0)})
  {
    var run1 := RelayTries(w, run, cfg, procs, p, count, tokens, now);
    run' := RelayGivesUp(w, run1, cfg, procs, p, count, now + cfg.leaseMs, tokens + {Token(p, 0)}, now);
  }

  /** The first relay fails. */
  lemma OneFails(cfg: Config) returns (run: seq<Event>, first: Option<Time>, tokens: set<Token>)
    requires cfg.policy.quarantineAfter == 2
    ensures Legal(Initial(cfg), run) && Token(2, 0) !in tokens
    ensures Counts(After(Initial(cfg), run), cfg, Three(Early(first), Done, QUEUED), 1, EPOCH, tokens)
  {
    run, first := EarlyRead(cfg);
    run := RelayFails(Initial(cfg), run, cfg, Three(Early(first), QUEUED, QUEUED), 1, 0, {} + {Token(0, 0)}, 11);
    tokens := {} + {Token(0, 0)} + {Token(1, 0)};
    ThreeAt(Early(first), QUEUED, QUEUED, Recorded(cfg, 1, 11));
  }

  /** Two relays fail one after the other. */
  lemma BothFail(cfg: Config) returns (run: seq<Event>, first: Option<Time>, tokens: set<Token>)
    requires cfg.policy.quarantineAfter == 2
    ensures Legal(Initial(cfg), run)
    ensures Counts(After(Initial(cfg), run), cfg, Three(Early(first), Done, DeadRead(1, 2, 13, "", [])), 2, EPOCH, tokens)
  {
    var before;
    run, first, before := OneFails(cfg);
    run := RelayFails(Initial(cfg), run, cfg, Three(Early(first), Done, QUEUED), 2, 1, before, 13);
    tokens := before + {Token(2, 0)};
    ThreeAt(Early(first), Done, QUEUED, Recorded(cfg, 2, 13));
  }

  /** Two relays fail, and the second failure quarantines the event and writes its letter. */
  lemma QuarantinedAtTwo(cfg: Config) returns (run: seq<Event>, first: Option<Time>, letter: DeadLetter, tokens: set<Token>)
    requires cfg.policy.quarantineAfter == 2
    ensures Legal(Initial(cfg), run) && letter.row.retryCount == 2
    ensures var w := After(Initial(cfg), run);
            Counts(w, cfg, Three(Early(first), Done, Done), 2, EPOCH, tokens) && 1 in w.s.t.deadById && w.s.t.deadById[1] == letter
  {
    var w, e := Initial(cfg), Move(2, At(14));
    run, first, tokens := BothFail(cfg);
    letter := LetterFound(After(w, run), cfg, first, 2, 13, tokens);
    Extend(w, run, e);
    run := run + [e];
    LetterWritten(After(w, run), cfg, first, letter, 2, tokens);
    Extend(w, run, e);
    run := run + [e];
  }

  /** With a limit of two failures: a publisher reads count 0 and pauses, two relays fail, the event is
      quarantined and replayed, and the publisher is still about to record count 1. */
  lemma LowCountAfterReplay(cfg: Config) returns (run: seq<Event>)
    requires cfg.policy.quarantineAfter == 2
    ensures Legal(Initial(cfg), run)
    ensures var w := After(Initial(cfg), run); CountHigh(w.s.t, 1, 2) && !NoLowCount(w, 1) && !AlwaysQuarantines(w, 1)
  {
    var first, letter, tokens;
    run, first, letter, tokens := QuarantinedAtTwo(cfg);
    var w := After(Initial(cfg), run);
    var a := ReplayStarts(w, cfg, first, letter, 2, tokens);
    var b := ReplayEnds(After(w, a), cfg, first, letter, 2, tokens);
    Join(w, a, b);
    Join(Initial(cfg), run, a + b);
    run := run + (a + b);
    var w' := After(Initial(cfg), run);
    assert w'.procs[0] == Early(first);
    LowCountShows(w', 1);
  }
}
