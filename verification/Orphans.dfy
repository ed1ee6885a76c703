/** Keys that no cleanup can reach, and keys that no append can use. A publisher that stops after
    taking its key leaves both behind. */
module Orphans {
  import opened Schema
  import opened Statements
  import opened Ordering
  import opened Protocol
  import opened Invariant
  import opened Moves
  import opened KeyCleanup
  import opened Runs
  import opened Collections

  // ---------- keys without an index row ----------

  /** The process neither indexes the key nor has it on a list to delete. */
  predicate Spares(pc: Pc, key: Key) {
    && (pc.AppendIndex? ==> pc.own.key != key)
    && (pc.CleanKeys? ==> forall k :: k in pc.stale ==> k.key != key)
  }

  /** The key is live, no by-created row names it, and no process is about to change that. */
  ghost predicate Orphan(w: World, key: Key) {
    && key in w.s.t.keys
    && (forall k :: k in w.s.t.byCreated ==> k.key != key)
    && (forall p :: p in w.procs ==> Spares(w.procs[p], key))
  }

  lemma TakeEffect(s: Shared, pc: Pc, c: Choice, key: Key)
    requires pc.AppendKey? && key in s.t.keys
    ensures var t' := Effect(s, pc, c); key in t'.keys && t'.keys[key] == s.t.keys[key] && t'.byCreated == s.t.byCreated
  {
    if pc.req.key != "" && KeyOf(pc.req) !in s.t.keys {
      assert Effect(s, pc, c).keys == s.t.keys[KeyOf(pc.req) := KeyRow(pc.newId, c.now)];
    }
  }

  lemma IndexEffect(s: Shared, pc: Pc, c: Choice)
    requires pc.AppendIndex?
    ensures Effect(s, pc, c).keys == s.t.keys && Effect(s, pc, c).byCreated == s.t.byCreated[CreatedKey(c.now, pc.own.key) := pc.newId]
  {
  }

  lemma RemoveEffect(s: Shared, pc: Pc, c: Choice)
    requires Deleting(pc)
    ensures Effect(s, pc, c).keys == s.t.keys - {pc.stale[0].key} && Effect(s, pc, c).byCreated == s.t.byCreated - {pc.stale[0]}
  {
  }

  lemma EffectSpares(s: Shared, pc: Pc, c: Choice, key: Key)
    requires key in s.t.keys && Spares(pc, key) && forall k :: k in s.t.byCreated ==> k.key != key
    ensures var t' := Effect(s, pc, c); key in t'.keys && forall k :: k in t'.byCreated ==> k.key != key
  {
    if pc.AppendKey? {
      TakeEffect(s, pc, c, key);
    } else if pc.AppendIndex? {
      IndexEffect(s, pc, c);
    } else if Deleting(pc) {
      assert pc.stale[0] in pc.stale;
      RemoveEffect(s, pc, c);
    } else {
      OtherStep(s, pc, c);
    }
  }

  lemma MoveSpares(s: Shared, p: Pid, pc: Pc, c: Choice, key: Key)
    requires key in s.t.keys && Spares(pc, key) && forall k :: k in s.t.byCreated ==> k.key != key
    ensures Spares(StepPc(s, p, pc, c), key)
  {
    if !pc.AppendKey? && !pc.CleanFetch? && !pc.CleanKeys? {
      SilentError(pc);
      if !pc.Publish? { SilentProceed(s, p, pc, c); }
    }
  }

  lemma OrphanNext(w: World, e: Event, key: Key)
    requires Orphan(w, key) && Enabled(w, e)
    ensures Orphan(Next(w, e), key)
  {
    var w' := Next(w, e);
    if e.Move? {
      StepTables(w.s, e.p, w.procs[e.p], e.c);
      EffectSpares(w.s, w.procs[e.p], e.c, key);
      MoveSpares(w.s, e.p, w.procs[e.p], e.c, key);
    }
    forall p | p in w'.procs ensures Spares(w'.procs[p], key) {
      if p != e.p { assert p in w.procs; }
    }
  }

  lemma {:induction false} OrphanForever(w: World, run: seq<Event>, key: Key)
    requires Orphan(w, key) && Legal(w, run)
    ensures Orphan(After(w, run), key)
    decreases |run|
  {
    if run != [] {
      OrphanNext(w, run[0], key);
      OrphanForever(Next(w, run[0]), run[1..], key);
    }
  }

  /** Some run from here removes the key. */
  ghost predicate Removable(w: World, key: Key) {
    exists run :: Legal(w, run) && key !in After(w, run).s.t.keys
  }

  lemma RemovableAfter(w: World, run: seq<Event>, key: Key)
    requires Legal(w, run) && Removable(After(w, run), key)
    ensures Removable(w, key)
  {
    var more :| Legal(After(w, run), more) && key !in After(After(w, run), more).s.t.keys;
    Join(w, run, more);
  }

  lemma HeldRemovable(w: World, p: Pid, row: CreatedKey)
    requires p in w.procs && HoldsRow(w.procs[p], row)
    ensures Removable(w, row.key)
  {
    var a := SkipTo(w, p, row);
    DeleteHead(After(w, a), p);
    Extend(w, a, Move(p, At(0)));
  }

  /** A new pass with a late cutoff and room for all rows gets hold of any row. */
  lemma Fetched(w: World, x: Pid, row: CreatedKey, limit: nat)
    requires x in w.procs && w.procs[x] == CleanFetch(row.createdAt + 1, 0, limit) && limit > |w.s.t.byCreated.Keys|
    requires row in w.s.t.byCreated
    ensures var e := Move(x, At(0)); Enabled(w, e) && x in Next(w, e).procs && HoldsRow(Next(w, e).procs[x], row)
  {
    var rows := CreatedRows(w.s.t);
    assert First(rows, limit) == rows;
    assert row in rows;
  }

  lemma ListedRemovable(w: World, row: CreatedKey)
    requires row in w.s.t.byCreated
    ensures Removable(w, row.key)
  {
    var x := Above(w.procs.Keys);
    var limit := |w.s.t.byCreated.Keys| + 1;
    var e1, e2 := Begin(x, CleanTask(row.createdAt + 1, 0, limit)), Move(x, At(0));
    var w1 := Next(w, e1);
    Fetched(w1, x, row, limit);
    Two(w, e1, e2);
    HeldRemovable(Next(w1, e2), x, row);
    RemovableAfter(w, [e1, e2], row.key);
  }

  lemma IndexingRemovable(w: World, p: Pid)
    requires p in w.procs && w.procs[p].AppendIndex?
    ensures Removable(w, w.procs[p].own.key)
  {
    var e := Move(p, At(0));
    var row := CreatedKey(0, w.procs[p].own.key);
    assert row in Next(w, e).s.t.byCreated;
    ListedRemovable(Next(w, e), row);
    One(w, e);
    RemovableAfter(w, [e], row.key);
  }

  /** A live key can never be removed, whatever passes run, if and only if no by-created row names it,
      no append is about to write one, and no pass holds one. */
  lemma OrphanExact(w: World, key: Key)
    requires key in w.s.t.keys
    ensures !Removable(w, key) <==> Orphan(w, key)
  {
    if Orphan(w, key) {
      forall run | Legal(w, run) ensures key in After(w, run).s.t.keys {
        OrphanForever(w, run, key);
      }
    } else if row :| row in w.s.t.byCreated && row.key == key {
      ListedRemovable(w, row);
    } else {
      var p :| p in w.procs && !Spares(w.procs[p], key);
      if w.procs[p].AppendIndex? {
        IndexingRemovable(w, p);
      } else {
        var row :| row in w.procs[p].stale && row.key == key;
        HeldRemovable(w, p, row);
      }
    }
  }

  // ---------- keys whose event was never stored ----------

  /** The process may still store the event. */
  predicate MayStore(pc: Pc, id: EventId) {
    (pc.AppendKey? || pc.AppendIndex? || pc.AppendBatch?) && pc.newId == id
  }

  /** The id was drawn, its event is not stored, and the publisher that drew it has stopped. */
  ghost predicate Stalled(w: World, id: EventId) {
    && id in w.s.h.holder && id !in w.s.h.orig
    && (forall p :: p in w.procs ==> !MayStore(w.procs[p], id))
  }

  lemma MoveStalled(s: Shared, p: Pid, pc: Pc, c: Choice, id: EventId)
    requires !MayStore(pc, id)
    ensures !MayStore(StepPc(s, p, pc, c), id)
  {
  }

  lemma StoredByBatch(s: Shared, p: Pid, pc: Pc, c: Choice)
    ensures Step(s, p, pc, c).h.holder == s.h.holder
    ensures Step(s, p, pc, c).h.orig ==
            if pc.AppendBatch? && !c.fault.Refused? then s.h.orig[pc.newId := pc.req.row] else s.h.orig
  {
    if pc.Publish? {
      var s1 := Offer(s, pc.msg, c.fault.Refused?);
      assert s1.h.orig == s.h.orig && s1.h.holder == s.h.holder;
      assert var s2 := GiveUp(s1, pc.msg.id, Token(p, c.draw)); s2.h.orig == s.h.orig && s2.h.holder == s.h.holder;
    } else {
      NotedByBatch(s, p, pc);
      ReportsOnly(Perform(s, p, pc, c), pc);
    }
  }

  lemma NotedByBatch(s: Shared, p: Pid, pc: Pc)
    ensures Note(s, p, pc).holder == s.h.holder
    ensures Note(s, p, pc).orig == if pc.AppendBatch? then s.h.orig[pc.newId := pc.req.row] else s.h.orig
  {
  }

  lemma ReportsOnly(s: Shared, pc: Pc)
    ensures Report(s, pc).holder == s.h.holder && Report(s, pc).orig == s.h.orig
  {
  }

  lemma StalledNext(w: World, e: Event, id: EventId)
    requires Stalled(w, id) && Enabled(w, e)
    ensures Stalled(Next(w, e), id)
  {
    var w' := Next(w, e);
    if e.Move? {
      StoredByBatch(w.s, e.p, w.procs[e.p], e.c);
      MoveStalled(w.s, e.p, w.procs[e.p], e.c, id);
    }
    forall p | p in w'.procs ensures !MayStore(w'.procs[p], id) {
      if p != e.p { assert p in w.procs; }
    }
  }

  lemma {:induction false} StalledForever(w: World, run: seq<Event>, id: EventId)
    requires Stalled(w, id) && Legal(w, run)
    ensures Stalled(After(w, run), id)
    decreases |run|
  {
    if run != [] {
      StalledNext(w, run[0], id);
      StalledForever(Next(w, run[0]), run[1..], id);
    }
  }

  /** The owner of a key life stays the same stalled event. */
  lemma StalledOwner(w: World, run: seq<Event>, own: KeyLife)
    requires Inv(w) && Legal(w, run) && own in w.s.h.owners && Stalled(w, w.s.h.owners[own])
    ensures var w' := After(w, run); Inv(w') && own in w'.s.h.owners && w'.s.h.owners[own] !in w'.s.h.orig
  {
    StalledForever(w, run, w.s.h.owners[own]);
    RunKeeps(w, run);
    OwnersKept(w, run);
  }

  /** Once the publisher that took a key has stopped before its batch, no append that meets this life of
      the key ever succeeds: no result names it as owner, and a duplicate finds no event and gives up. */
  lemma StalledKeyFails(w: World, run: seq<Event>, own: KeyLife, p: Pid, c: Choice)
    requires Inv(w) && Legal(w, run) && own in w.s.h.owners && Stalled(w, w.s.h.owners[own])
    ensures var w' := After(w, run);
            && (forall r :: r in w'.s.h.results ==> r.owner != Some(own))
            && (p in w'.procs && w'.procs[p].AppendRead? && w'.procs[p].own == own ==>
                  StepPc(w'.s, p, w'.procs[p], c) == Done && Step(w'.s, p, w'.procs[p], c).h.results == w'.s.h.results)
  {
    StalledOwner(w, run, own);
    var w' := After(w, run);
    NoResult(w'.s, own);
    if p in w'.procs && w'.procs[p].AppendRead? && w'.procs[p].own == own {
      ReadFails(w'.s, p, w'.procs[p], own, c);
    }
  }

  lemma {:induction false} OwnersKept(w: World, run: seq<Event>)
    requires Inv(w) && Legal(w, run)
    ensures Extends(w.s.h.owners, After(w, run).s.h.owners)
    decreases |run|
  {
    if run != [] {
      NextKeeps(w, run[0]);
      OwnersKept(Next(w, run[0]), run[1..]);
    }
  }

  lemma NoResult(s: Shared, own: KeyLife)
    requires SharedInv(s) && own in s.h.owners && s.h.owners[own] !in s.h.orig
    ensures forall r :: r in s.h.results ==> r.owner != Some(own)
  {
    forall r | r in s.h.results ensures r.owner != Some(own) {
      assert ReturnOk(s.h.orig, s.h.owners, r);
    }
  }

  lemma ReadFails(s: Shared, p: Pid, pc: Pc, own: KeyLife, c: Choice)
    requires SharedInv(s) && PcInv(s, p, pc) && pc.AppendRead? && pc.own == own
    requires own in s.h.owners && s.h.owners[own] !in s.h.orig
    ensures StepPc(s, p, pc, c) == Done && Step(s, p, pc, c).h.results == s.h.results
  {
  }

  /** If the key has no index row either, this lasts forever: the key stays, in the same life, with the
      same event that nobody can read. */
  lemma OrphanStalledForever(w: World, run: seq<Event>, key: Key)
    requires Inv(w) && Legal(w, run) && Orphan(w, key) && Stalled(w, w.s.t.keys[key].id)
    ensures var w' := After(w, run);
            && key in w'.s.t.keys && w'.s.t.keys[key].id == w.s.t.keys[key].id
            && w'.s.t.keys[key].id !in w'.s.t.byId
  {
    RunKeeps(w, run);
    OrphanForever(w, run, key);
    StalledForever(w, run, w.s.t.keys[key].id);
    RowKept(w, run, key);
  }

  lemma {:induction false} RowKept(w: World, run: seq<Event>, key: Key)
    requires Orphan(w, key) && Legal(w, run)
    ensures key in After(w, run).s.t.keys && After(w, run).s.t.keys[key] == w.s.t.keys[key]
    decreases |run|
  {
    if run != [] {
      OrphanNext(w, run[0], key);
      if run[0].Move? {
        StepTables(w.s, run[0].p, w.procs[run[0].p], run[0].c);
        RowStays(w.s, w.procs[run[0].p], run[0].c, key);
      }
      RowKept(Next(w, run[0]), run[1..], key);
    }
  }

  lemma RowStays(s: Shared, pc: Pc, c: Choice, key: Key)
    requires key in s.t.keys && Spares(pc, key)
    ensures key in Effect(s, pc, c).keys && Effect(s, pc, c).keys[key] == s.t.keys[key]
  {
    if pc.AppendKey? {
      TakeEffect(s, pc, c, key);
    } else if pc.AppendIndex? {
      IndexEffect(s, pc, c);
    } else if Deleting(pc) {
      assert pc.stale[0] in pc.stale;
      RemoveEffect(s, pc, c);
    } else {
      OtherStep(s, pc, c);
    }
  }
}
