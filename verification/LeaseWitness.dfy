/** A concrete run in which two relays publish one event at the same time although the first holds an
    unexpired lease: a publisher that repeats the request fails to publish and records the failure,
    and that clears the lease of the relay. */
module LeaseWitness {
  import opened Schema
  import opened Statements
  import opened Ordering
  import opened Protocol
  import opened Guarantees
  import opened Runs

  const KEY: Key := Key("s", "k")
  const BODY: Body := Body("s", "", "", "")
  const ROW: EventRow := EventRow(0, BODY)
  const REQ: Request := Request("k", ROW)
  const MSG: Message := Message(1, "", "")
  const REC: Record := Record(1, BODY, 0, 0)
  const FREE: RetryRow := RetryRow(0, 0, "", "", Some(EPOCH), false, None, None)

  /** Before the event is stored. */
  ghost predicate Blank(w: World, cfg: Config, procs: map<Pid, Pc>) {
    && w.s.cfg == cfg && w.procs == procs && w.s.h.holder.Keys == {1} && w.s.h.issued == map[]
    && w.s.t.outbox == map[] && w.s.t.pending == map[] && w.s.t.retry == map[]
  }

  /** Event 1 is stored and pending, with the given retry row. */
  ghost predicate Shows(w: World, cfg: Config, row: RetryRow, ids: set<EventId>, procs: map<Pid, Pc>) {
    && w.s.cfg == cfg && w.procs == procs && w.s.h.holder.Keys == ids && w.s.h.issued == map[]
    && KEY in w.s.t.keys && w.s.t.keys[KEY].id == 1
    && 1 in w.s.t.byId && w.s.t.byId[1] == ROW && 1 in w.s.t.outbox && w.s.t.outbox[1].state == Pending
    && w.s.t.pending == map[Slot(0, 1) := BODY] && w.s.t.retry == map[1 := row]
  }

  lemma Taken(cfg: Config) returns (run: seq<Event>, own: KeyLife)
    ensures Legal(Initial(cfg), run) && Blank(After(Initial(cfg), run), cfg, map[0 := AppendIndex(REQ, 1, own, 1)])
    ensures KEY in After(Initial(cfg), run).s.t.keys && After(Initial(cfg), run).s.t.keys[KEY].id == 1
  {
    var w := Initial(cfg);
    var e1, e2 := Begin(0, PublishTask(REQ, 1)), Move(0, At(1));
    var w1 := Next(w, e1);
    assert Blank(w1, cfg, map[0 := AppendKey(REQ, 1)]);
    own := KeyLife(KEY, Life(w1.s.h.lives, KEY));
    Two(w, e1, e2);
    run := [e1, e2];
  }

  lemma Indexed(w: World, cfg: Config, own: KeyLife)
    requires Blank(w, cfg, map[0 := AppendIndex(REQ, 1, own, 1)])
    ensures var e := Move(0, At(1)); Enabled(w, e) && Blank(Next(w, e), cfg, map[0 := AppendBatch(REQ, 1, Some(own))])
    ensures Next(w, Move(0, At(1))).s.t.keys == w.s.t.keys
  {
  }

  lemma Written(w: World, cfg: Config, own: KeyLife)
    requires Blank(w, cfg, map[0 := AppendBatch(REQ, 1, Some(own))]) && KEY in w.s.t.keys && w.s.t.keys[KEY].id == 1
    ensures var e := Move(0, At(1)); Enabled(w, e) && Shows(Next(w, e), cfg, FREE, {1}, map[0 := Publish(MSG, 1, [])])
  {
  }

  /** The event is appended. */
  lemma Stored(cfg: Config) returns (run: seq<Event>)
    ensures Legal(Initial(cfg), run) && Shows(After(Initial(cfg), run), cfg, FREE, {1}, map[0 := Publish(MSG, 1, [])])
  {
    var own;
    run, own := Taken(cfg);
    var w := After(Initial(cfg), run);
    var e := Move(0, At(1));
    Indexed(w, cfg, own);
    Written(Next(w, e), cfg, own);
    Extend(Initial(cfg), run, e);
    Extend(Initial(cfg), run + [e], e);
    run := run + [e] + [e];
  }

  lemma OneSlot(t: Tables)
    requires t.pending == map[Slot(0, 1) := BODY]
    ensures First(PendingRows(t), FetchLimit(1)) == [Slot(0, 1)]
  {
    assert t.pending.Keys == {Slot(0, 1)};
    assert Slot(0, 1) in PendingRows(t);
  }

  lemma Fetched(w: World, cfg: Config, procs: map<Pid, Pc>, x: Pid)
    requires x !in procs && Shows(w, cfg, FREE, {1}, procs[x := RelayFetch(1)])
    ensures var e := Move(x, At(10));
            Enabled(w, e) && Shows(Next(w, e), cfg, FREE, {1}, procs[x := RelayCheck([Slot(0, 1)], map[Slot(0, 1) := BODY], [], 1)])
  {
    OneSlot(w.s.t);
    assert procs[x := RelayFetch(1)][x := RelayCheck([Slot(0, 1)], map[Slot(0, 1) := BODY], [], 1)]
        == procs[x := RelayCheck([Slot(0, 1)], map[Slot(0, 1) := BODY], [], 1)];
  }

  lemma Checked(w: World, cfg: Config, procs: map<Pid, Pc>, x: Pid)
    requires x !in procs && Shows(w, cfg, FREE, {1}, procs[x := RelayCheck([Slot(0, 1)], map[Slot(0, 1) := BODY], [], 1)])
    ensures var e := Move(x, At(10));
            Enabled(w, e) && Shows(Next(w, e), cfg, FREE, {1}, procs[x := RelayCheck([], map[Slot(0, 1) := BODY], [REC], 1)])
  {
    assert [Slot(0, 1)][1..] == [] && [] + [REC] == [REC];
    assert procs[x := RelayCheck([Slot(0, 1)], map[Slot(0, 1) := BODY], [], 1)][x := RelayCheck([], map[Slot(0, 1) := BODY], [REC], 1)]
        == procs[x := RelayCheck([], map[Slot(0, 1) := BODY], [REC], 1)];
  }

  lemma Queued(w: World, cfg: Config, procs: map<Pid, Pc>, x: Pid)
    requires x !in procs && Shows(w, cfg, FREE, {1}, procs[x := RelayCheck([], map[Slot(0, 1) := BODY], [REC], 1)])
    ensures var e := Move(x, At(10)); Enabled(w, e) && Shows(Next(w, e), cfg, FREE, {1}, procs[x := RelayClaim([REC])])
  {
    assert procs[x := RelayCheck([], map[Slot(0, 1) := BODY], [REC], 1)][x := RelayClaim([REC])] == procs[x := RelayClaim([REC])];
  }

  /** A relay reads the event into its batch. */
  lemma Ready(w: World, run: seq<Event>, cfg: Config, procs: map<Pid, Pc>, x: Pid) returns (run': seq<Event>)
    requires Legal(w, run) && x !in procs && Shows(After(w, run), cfg, FREE, {1}, procs)
    ensures Legal(w, run') && Shows(After(w, run'), cfg, FREE, {1}, procs[x := RelayClaim([REC])])
  {
    var b, e := Begin(x, RelayTask(1)), Move(x, At(10));
    Extend(w, run, b);
    run' := run + [b];
    Fetched(After(w, run'), cfg, procs, x);
    Extend(w, run', e);
    run' := run' + [e];
    Checked(After(w, run'), cfg, procs, x);
    Extend(w, run', e);
    run' := run' + [e];
    Queued(After(w, run'), cfg, procs, x);
    Extend(w, run', e);
    run' := run' + [e];
  }

  /** Two relays have the event in their batches. */
  lemma BothReady(cfg: Config) returns (run: seq<Event>)
    ensures Legal(Initial(cfg), run)
    ensures Shows(After(Initial(cfg), run), cfg, FREE, {1}, map[0 := Publish(MSG, 1, []), 1 := RelayClaim([REC]), 2 := RelayClaim([REC])])
  {
    run := Stored(cfg);
    var p0 := map[0 := Publish(MSG, 1, [])];
    run := Ready(Initial(cfg), run, cfg, p0, 1);
    run := Ready(Initial(cfg), run, cfg, p0[1 := RelayClaim([REC])], 2);
  }

  function Leased(cfg: Config): RetryRow {
    FREE.(leaseOwner := "", leaseUntil := Some(10 + cfg.leaseMs))
  }

  /** The processes after the first relay has claimed the event, and a repeated request stands at pc. */
  function Procs(pc: Pc): map<Pid, Pc> {
    map[0 := Publish(MSG, 1, []), 1 := Publish(MSG, 1, []), 2 := RelayClaim([REC]), 3 := pc]
  }

  lemma FirstClaims(w: World, cfg: Config)
    requires Shows(w, cfg, FREE, {1}, map[0 := Publish(MSG, 1, []), 1 := RelayClaim([REC]), 2 := RelayClaim([REC])])
    ensures var e := Move(1, At(10));
            && Enabled(w, e) && Claims(w, e, 1)
            && Shows(Next(w, e), cfg, Leased(cfg), {1}, map[0 := Publish(MSG, 1, []), 1 := Publish(MSG, 1, []), 2 := RelayClaim([REC])])
  {
    assert [REC][1..] == [];
  }

  /** The repeated request gets as far as the publication of event 1. */
  lemma Repeated(w: World, cfg: Config) returns (run: seq<Event>)
    requires Shows(w, cfg, Leased(cfg), {1}, map[0 := Publish(MSG, 1, []), 1 := Publish(MSG, 1, []), 2 := RelayClaim([REC])])
    ensures Legal(w, run) && Shows(After(w, run), cfg, Leased(cfg), {1, 2}, Procs(Publish(MSG, 1, [])))
  {
    var b, e := Begin(3, PublishTask(REQ, 2)), Move(3, At(11));
    One(w, b);
    run := [b];
    var w1 := After(w, run);
    assert Shows(w1, cfg, Leased(cfg), {1, 2}, Procs(AppendKey(REQ, 2)));
    var own := DuplicateMoves(w1, cfg);
    Extend(w, run, e);
    run := run + [e];
    ReadMoves(After(w, run), cfg, own);
    Extend(w, run, e);
    run := run + [e];
    StateMoves(After(w, run), cfg, own);
    Extend(w, run, e);
    run := run + [e];
  }

  lemma DuplicateMoves(w: World, cfg: Config) returns (own: KeyLife)
    requires Shows(w, cfg, Leased(cfg), {1, 2}, Procs(AppendKey(REQ, 2)))
    ensures var e := Move(3, At(11)); Enabled(w, e) && Shows(Next(w, e), cfg, Leased(cfg), {1, 2}, Procs(AppendRead(1, own)))
  {
    own := KeyLife(KEY, Life(w.s.h.lives, KEY));
  }

  lemma ReadMoves(w: World, cfg: Config, own: KeyLife)
    requires Shows(w, cfg, Leased(cfg), {1, 2}, Procs(AppendRead(1, own)))
    ensures var e := Move(3, At(11)); Enabled(w, e) && Shows(Next(w, e), cfg, Leased(cfg), {1, 2}, Procs(AppendState(1, own, ROW)))
  {
  }

  lemma StateMoves(w: World, cfg: Config, own: KeyLife)
    requires Shows(w, cfg, Leased(cfg), {1, 2}, Procs(AppendState(1, own, ROW)))
    ensures var e := Move(3, At(11)); Enabled(w, e) && Shows(Next(w, e), cfg, Leased(cfg), {1, 2}, Procs(Publish(MSG, 1, [])))
  {
  }

  /** The second relay holds the event in its batch and the retry row looks like this. */
  ghost predicate Waits(w: World, row: RetryRow, pc: Pc) {
    w.procs == Procs(pc) && w.s.t.retry == map[1 := row]
  }

  lemma GivesUp(w: World, cfg: Config)
    requires Shows(w, cfg, Leased(cfg), {1, 2}, Procs(Publish(MSG, 1, [])))
    ensures Enabled(w, Move(3, REFUSED)) && Waits(Next(w, Move(3, REFUSED)), Leased(cfg), FailRead(1, Token(3, 0), []))
  {
  }

  lemma CountRead(w: World, row: RetryRow)
    requires Waits(w, row, FailRead(1, Token(3, 0), [])) && row.retryCount == 0 && row.firstFailed == None
    ensures var e := Move(3, At(11)); Enabled(w, e) && Waits(Next(w, e), row, FailWrite(1, Token(3, 0), 1, None, []))
  {
  }

  /** The second relay can claim event 1 while the first is publishing it. */
  ghost predicate Freed(w: World) {
    && 2 in w.procs && w.procs[2] == RelayClaim([REC]) && 1 in w.procs && w.procs[1] == Publish(MSG, 1, [])
    && 1 in w.s.t.retry && w.s.t.retry[1].leaseUntil == Some(EPOCH)
  }

  lemma FailureRecorded(w: World, row: RetryRow)
    requires Waits(w, row, FailWrite(1, Token(3, 0), 1, None, []))
    ensures var e := Move(3, At(11)); Enabled(w, e) && Freed(Next(w, e))
  {
  }

  /** The process is publishing event 1. */
  predicate Publishes(w: World, p: Pid) {
    p in w.procs && w.procs[p].Publish? && w.procs[p].msg.id == 1
  }

  lemma SecondClaims(w: World)
    requires Freed(w)
    ensures var e := Move(2, At(12)); Enabled(w, e) && Claims(w, e, 1) && Publishes(w, 1) && Publishes(Next(w, e), 2)
  {
  }

  /** The repeated request fails to publish and records the failure; then the second relay can claim. */
  lemma Cleared(w: World, cfg: Config) returns (run: seq<Event>)
    requires Shows(w, cfg, Leased(cfg), {1, 2}, Procs(Publish(MSG, 1, [])))
    ensures Legal(w, run) && Enabled(After(w, run), Move(2, At(12))) && Claims(After(w, run), Move(2, At(12)), 1)
    ensures Publishes(After(w, run), 1) && Publishes(Next(After(w, run), Move(2, At(12))), 2)
  {
    var e := Move(3, At(11));
    GivesUp(w, cfg);
    One(w, Move(3, REFUSED));
    run := [Move(3, REFUSED)];
    CountRead(After(w, run), Leased(cfg));
    Extend(w, run, e);
    run := run + [e];
    FailureRecorded(After(w, run), Leased(cfg));
    Extend(w, run, e);
    run := run + [e];
    SecondClaims(After(w, run));
  }

  /** Relay 1 claims event 1, a repeated request records a failure, and relay 2 claims event 1 while the
      lease of relay 1 is still running; both are then publishing it. */
  lemma LeaseDoesNotExclude(cfg: Config) returns (before: seq<Event>, first: Event, between: seq<Event>, second: Event)
    requires Sound(cfg)
    ensures Legal(Initial(cfg), before)
    ensures var w := After(Initial(cfg), before);
            && Enabled(w, first) && Claims(w, first, 1) && Legal(Next(w, first), between)
            && var w' := After(Next(w, first), between);
               && Enabled(w', second) && Claims(w', second, 1) && second.p != first.p
               && first.c.now <= second.c.now <= first.c.now + cfg.leaseMs
               && Publishes(w', first.p) && Publishes(Next(w', second), second.p)
  {
    before := BothReady(cfg);
    var w := After(Initial(cfg), before);
    first, second := Move(1, At(10)), Move(2, At(12));
    FirstClaims(w, cfg);
    var a := Repeated(Next(w, first), cfg);
    var b := Cleared(After(Next(w, first), a), cfg);
    Join(Next(w, first), a, b);
    between := a + b;
  }
}
