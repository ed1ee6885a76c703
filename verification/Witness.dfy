/** Concrete runs about idempotency keys: overlapping cleanup passes that delete a fresh key, and a
    publisher that stops after taking its key. */
module Witness {
  import opened Schema
  import opened Statements
  import opened Ordering
  import opened Protocol
  import opened KeyCleanup
  import opened Runs
  import opened Invariant
  import opened Moves
  import opened Orphans

  lemma OneRow(t: Tables, row: CreatedKey, id: EventId)
    requires t.byCreated == map[row := id]
    ensures CreatedRows(t) == [row]
  {
    assert t.byCreated.Keys == {row};
    assert row in CreatedRows(t);
  }

  const KEY: Key := Key("s", "k")
  const REQ: Request := Request("k", EventRow(0, Body("s", "", "", "")))
  const ONE_KEY: map<Key, KeyRow> := map[KEY := KeyRow(1, 1)]
  const ONE_ROW: map<CreatedKey, EventId> := map[CreatedKey(1, KEY) := 1]
  const STALE: Pc := CleanKeys([CreatedKey(1, KEY)], 10, 0, 1)

  /** What the witness follows: the two key tables, the ids drawn and the processes. */
  ghost predicate Looks(w: World, keys: map<Key, KeyRow>, byCreated: map<CreatedKey, EventId>, ids: set<EventId>, procs: map<Pid, Pc>) {
    w.s.t.keys == keys && w.s.t.byCreated == byCreated && w.s.h.holder.Keys == ids && w.procs == procs
  }

  lemma TakeKey(w: World, run: seq<Event>, p: Pid, id: EventId, now: Time, ids: set<EventId>, procs: map<Pid, Pc>)
      returns (run': seq<Event>, own: KeyLife)
    requires Legal(w, run) && Looks(After(w, run), map[], map[], ids, procs) && p !in procs && id !in ids
    ensures Legal(w, run')
    ensures Looks(After(w, run'), map[KEY := KeyRow(id, now)], map[], ids + {id}, procs[p := AppendIndex(REQ, id, own, now)])
    ensures own.key == KEY
  {
    var e1, e2 := Begin(p, PublishTask(REQ, id)), Move(p, At(now));
    Extend(w, run, e1);
    var w1 := Next(After(w, run), e1);
    assert Looks(w1, map[], map[], ids + {id}, procs[p := AppendKey(REQ, id)]);
    Extend(w, run + [e1], e2);
    own := KeyLife(KEY, Life(w1.s.h.lives, KEY));
    run' := run + [e1] + [e2];
  }

  /** A publisher takes the key and indexes it. */
  lemma Append(w: World, run: seq<Event>, p: Pid, id: EventId, now: Time, ids: set<EventId>, procs: map<Pid, Pc>)
      returns (run': seq<Event>, pc: Pc)
    requires Legal(w, run) && Looks(After(w, run), map[], map[], ids, procs) && p !in procs && id !in ids
    ensures Legal(w, run')
    ensures Looks(After(w, run'), map[KEY := KeyRow(id, now)], map[CreatedKey(now, KEY) := id], ids + {id}, procs[p := pc])
  {
    var run1, own := TakeKey(w, run, p, id, now, ids, procs);
    var e := Move(p, At(now));
    Extend(w, run1, e);
    pc := AppendBatch(REQ, id, Some(own));
    run' := run1 + [e];
  }

  /** The page of a partition with one row, read with cutoff 10. */
  lemma PageOfOne(t: Tables)
    requires t.byCreated == ONE_ROW
    ensures Older(First(CreatedRows(t), 1), CreatedTime, 10) == [CreatedKey(1, KEY)]
  {
    OneRow(t, CreatedKey(1, KEY), 1);
    assert First([CreatedKey(1, KEY)], 1) == [CreatedKey(1, KEY)];
  }

  lemma BeginClean(w: World, run: seq<Event>, p: Pid, procs: map<Pid, Pc>) returns (run': seq<Event>)
    requires Legal(w, run) && p !in procs && Looks(After(w, run), ONE_KEY, ONE_ROW, {1}, procs)
    ensures Legal(w, run') && Looks(After(w, run'), ONE_KEY, ONE_ROW, {1}, procs[p := CleanFetch(10, 0, 1)])
  {
    var e := Begin(p, CleanTask(10, 0, 1));
    Extend(w, run, e);
    run' := run + [e];
  }

  lemma PageRead(w: World, p: Pid, procs: map<Pid, Pc>)
    requires Looks(w, ONE_KEY, ONE_ROW, {1}, procs[p := CleanFetch(10, 0, 1)])
    ensures var e := Move(p, At(20)); Enabled(w, e) && Looks(Next(w, e), ONE_KEY, ONE_ROW, {1}, procs[p := STALE])
  {
    PageOfOne(w.s.t);
    assert procs[p := CleanFetch(10, 0, 1)][p := STALE] == procs[p := STALE];
  }

  /** A cleanup pass with cutoff 10 reads its page, which holds one row. */
  lemma Fetch(w: World, run: seq<Event>, p: Pid, procs: map<Pid, Pc>) returns (run': seq<Event>)
    requires Legal(w, run) && p !in procs && Looks(After(w, run), ONE_KEY, ONE_ROW, {1}, procs)
    ensures Legal(w, run') && Looks(After(w, run'), ONE_KEY, ONE_ROW, {1}, procs[p := STALE])
  {
    var run1 := BeginClean(w, run, p, procs);
    var e := Move(p, At(20));
    PageRead(After(w, run1), p, procs);
    Extend(w, run1, e);
    run' := run1 + [e];
  }

  /** A pass executes the deletion of the row it holds. */
  lemma Delete(w: World, run: seq<Event>, p: Pid, keys: map<Key, KeyRow>, byCreated: map<CreatedKey, EventId>, ids: set<EventId>, procs: map<Pid, Pc>)
      returns (run': seq<Event>)
    requires Legal(w, run) && Looks(After(w, run), keys, byCreated, ids, procs)
    requires p in procs && procs[p] == CleanKeys([CreatedKey(1, KEY)], 10, 0, 1)
    ensures Legal(w, run') && run' == run + [Move(p, At(20))]
    ensures Enabled(After(w, run), Move(p, At(20))) && After(w, run') == Next(After(w, run), Move(p, At(20)))
    ensures Looks(After(w, run'), keys - {KEY}, byCreated - {CreatedKey(1, KEY)}, ids, procs[p := CleanKeys([], 10, 0, 1)])
  {
    var e := Move(p, At(20));
    Extend(w, run, e);
    assert [CreatedKey(1, KEY)][1..] == [];
    run' := run + [e];
  }


  lemma Appended(cfg: Config) returns (run: seq<Event>, procs: map<Pid, Pc>)
    ensures Legal(Initial(cfg), run) && Looks(After(Initial(cfg), run), ONE_KEY, ONE_ROW, {1}, procs) && procs.Keys == {0}
  {
    var pc0;
    run, pc0 := Append(Initial(cfg), [], 0, 1, 1, {}, map[]);
    assert {} + {1} == {1};
    procs := map[][0 := pc0];
  }

  /** An event is appended and two passes read its expired row. */
  lemma BothFetched(cfg: Config) returns (run: seq<Event>, procs: map<Pid, Pc>)
    ensures Legal(Initial(cfg), run) && Looks(After(Initial(cfg), run), ONE_KEY, ONE_ROW, {1}, procs)
    ensures 1 in procs && procs[1] == STALE && 2 in procs && procs[2] == STALE && 3 !in procs
  {
    run, procs := Appended(cfg);
    run := Fetch(Initial(cfg), run, 1, procs);
    procs := procs[1 := STALE];
    run := Fetch(Initial(cfg), run, 2, procs);
    procs := procs[2 := STALE];
  }

  /** The first pass deletes the row. */
  lemma Prepare(cfg: Config) returns (run: seq<Event>, procs: map<Pid, Pc>)
    ensures Legal(Initial(cfg), run) && Looks(After(Initial(cfg), run), map[], map[], {1}, procs)
    ensures 2 in procs && procs[2] == STALE && 3 !in procs
  {
    run, procs := BothFetched(cfg);
    run := Delete(Initial(cfg), run, 1, ONE_KEY, ONE_ROW, {1}, procs);
    procs := procs[1 := CleanKeys([], 10, 0, 1)];
    assert ONE_KEY - {KEY} == map[];
    assert ONE_ROW - {CreatedKey(1, KEY)} == map[];
  }

  /** Two overlapping passes with cutoff 10 hold the same expired row. The second one deletes a key
      created at 100 and leaves a by-created row that names no live key. */
  lemma OverlapRemovesFreshKey(cfg: Config) returns (run: seq<Event>, e: Event)
    requires Sound(cfg)
    ensures Legal(Initial(cfg), run) && Enabled(After(Initial(cfg), run), e)
    ensures var w := After(Initial(cfg), run); var w' := Next(w, e);
            && KEY in w.s.t.keys && w.s.t.keys[KEY].createdAt == 100 && KEY !in w'.s.t.keys
            && e.Move? && w.procs[e.p].CleanKeys? && w.procs[e.p].keyCutoff == 10
            && !RowsLive(w'.s.t.keys, w'.s.t.byCreated)
  {
    var w := Initial(cfg);
    var procs, pc3;
    run, procs := Prepare(cfg);
    run, pc3 := Append(w, run, 3, 2, 100, {1}, procs);
    e := Move(2, At(20));
    var run' := Delete(w, run, 2, map[KEY := KeyRow(2, 100)], map[CreatedKey(100, KEY) := 2], {1} + {2}, procs[3 := pc3]);
    var w' := After(w, run');
    assert CreatedKey(100, KEY) in w'.s.t.byCreated;
  }

  /** A publisher that stops after taking its key leaves a key that no pass can remove and no append can use. */
  lemma StoppedAppendLeavesOrphan(cfg: Config) returns (run: seq<Event>)
    requires Sound(cfg)
    ensures Legal(Initial(cfg), run)
    ensures var w := After(Initial(cfg), run);
            Orphan(w, KEY) && w.s.t.keys[KEY] == KeyRow(1, 1) && Stalled(w, 1) && !Removable(w, KEY)
  {
    run := KeyOnly(cfg);
    HaltLeavesOrphan(After(Initial(cfg), run));
    Extend(Initial(cfg), run, Halt(0));
    run := run + [Halt(0)];
    OrphanExact(After(Initial(cfg), run), KEY);
  }

  /** The publisher has taken its key and done nothing else. */
  ghost predicate OnlyKey(w: World) {
    && w.s.t.keys == map[KEY := KeyRow(1, 1)] && w.s.t.byCreated == map[] && w.procs.Keys == {0}
    && 1 in w.s.h.holder && 1 !in w.s.h.orig
  }

  lemma KeyOnly(cfg: Config) returns (run: seq<Event>)
    requires Sound(cfg)
    ensures Legal(Initial(cfg), run) && OnlyKey(After(Initial(cfg), run))
  {
    var own;
    run, own := TakeKey(Initial(cfg), [], 0, 1, 1, {}, map[]);
    Reachable(cfg, run);
    NotStored(After(Initial(cfg), run), own);
  }

  lemma NotStored(w: World, own: KeyLife)
    requires Inv(w) && 0 in w.procs && w.procs[0] == AppendIndex(REQ, 1, own, 1)
    ensures 1 !in w.s.h.orig
  {
    assert PcInv(w.s, 0, w.procs[0]);
  }

  lemma HaltLeavesOrphan(w: World)
    requires OnlyKey(w)
    ensures Enabled(w, Halt(0))
    ensures var w' := Next(w, Halt(0)); Orphan(w', KEY) && w'.s.t.keys[KEY] == KeyRow(1, 1) && Stalled(w', 1)
  {
    assert Next(w, Halt(0)).procs == map[];
  }
}
