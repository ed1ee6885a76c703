/** Expiry of idempotency keys under interleaving. The by-created index is written by a
    separate statement after the key, and a cleanup pass deletes key and index row from a
    list it read earlier; so these lemmas assume that no two passes hold the same row and that
    the clock does not run backwards between the two statements of one append. */
module KeyCleanup {
  import opened Schema
  import opened Statements
  import opened Ordering
  import opened Protocol
  import opened Invariant
  import opened Moves
  import opened Operations
  import opened Cleanup

  /** Every by-created row names a live key of the same event, created no later, and a key has one row. */
  ghost predicate RowsLive(keys: map<Key, KeyRow>, byCreated: map<CreatedKey, EventId>) {
    && (forall k :: k in byCreated ==> k.key in keys && keys[k.key].id == byCreated[k] && keys[k.key].createdAt <= k.createdAt)
    && (forall a, b :: a in byCreated && b in byCreated && a.key == b.key ==> a == b)
  }

  /** An append between its two statements: its key is live and not indexed yet. */
  ghost predicate Unindexed(keys: map<Key, KeyRow>, byCreated: map<CreatedKey, EventId>, key: Key, row: KeyRow) {
    && key in keys && keys[key] == row
    && (forall k :: k in byCreated ==> k.key != key)
  }

  /** What a pass still has to delete is expired, listed, and free of repetition. */
  ghost predicate StaleListed(byCreated: map<CreatedKey, EventId>, stale: seq<CreatedKey>, cutoff: Time) {
    && (forall k :: k in stale ==> k in byCreated && k.createdAt < cutoff)
    && DistinctRows(stale)
  }

  lemma StaleTail(byCreated: map<CreatedKey, EventId>, stale: seq<CreatedKey>, cutoff: Time)
    requires StaleListed(byCreated, stale, cutoff) && stale != []
    ensures StaleListed(byCreated, stale[1..], cutoff) && StaleListed(byCreated - {stale[0]}, stale[1..], cutoff)
    ensures stale[0] in byCreated && stale[0].createdAt < cutoff
  {
    assert stale[0] in stale;
    assert forall k :: k in stale[1..] ==> k in stale;
  }

  /** Only appends with a key take keys, and they have a stream. */
  ghost predicate Named(keys: map<Key, KeyRow>) {
    forall key :: key in keys ==> key.name != "" && key.stream != ""
  }

  ghost predicate LocalKeys(t: Tables, pc: Pc) {
    && (pc.AppendKey? ==> pc.req.row.body.stream != "")
    && (pc.AppendIndex? ==> Unindexed(t.keys, t.byCreated, pc.own.key, KeyRow(pc.newId, pc.created)))
    && (pc.CleanKeys? ==> StaleListed(t.byCreated, pc.stale, pc.keyCutoff))
  }

  ghost predicate LocalsKeys(t: Tables, procs: map<Pid, Pc>) {
    forall p :: p in procs ==> LocalKeys(t, procs[p])
  }

  ghost predicate KeyPart(w: World) {
    RowsLive(w.s.t.keys, w.s.t.byCreated) && Named(w.s.t.keys) && LocalsKeys(w.s.t, w.procs)
  }

  ghost predicate KeyInv(w: World) {
    Inv(w) && KeyPart(w)
  }

  predicate Deleting(pc: Pc) {
    pc.CleanKeys? && pc.stale != []
  }

  /** The process has the row on its list of rows to delete. */
  predicate HoldsRow(pc: Pc, row: CreatedKey) {
    pc.CleanKeys? && row in pc.stale
  }

  /** No two passes hold the same row. */
  ghost predicate PassesApart(w: World) {
    forall p, q, k :: p in w.procs && q in w.procs && HoldsRow(w.procs[p], k) && HoldsRow(w.procs[q], k) ==> p == q
  }

  /** The index row of a key is not dated before the key. */
  predicate ClockOk(w: World, e: Event) {
    e.Move? && e.p in w.procs && w.procs[e.p].AppendIndex? ==> w.procs[e.p].created <= e.c.now
  }

  ghost predicate Orderly(w: World, run: seq<Event>)
    requires Legal(w, run)
    decreases |run|
  {
    PassesApart(w) && (run == [] || (ClockOk(w, run[0]) && Orderly(Next(w, run[0]), run[1..])))
  }

  lemma KeyTaken(t: Tables, key: Key, id: EventId, now: Time)
    requires RowsLive(t.keys, t.byCreated) && key !in t.keys
    ensures RowsLive(t.keys[key := KeyRow(id, now)], t.byCreated)
    ensures Unindexed(t.keys[key := KeyRow(id, now)], t.byCreated, key, KeyRow(id, now))
  {
  }

  lemma KeyTakenOthers(t: Tables, key: Key, row: KeyRow, pc: Pc)
    requires LocalKeys(t, pc) && key !in t.keys
    ensures LocalKeys(t.(keys := t.keys[key := row]), pc)
  {
  }

  lemma KeyIndexed(t: Tables, key: Key, row: KeyRow, now: Time)
    requires RowsLive(t.keys, t.byCreated) && Unindexed(t.keys, t.byCreated, key, row) && row.createdAt <= now
    ensures RowsLive(t.keys, InsertCreated(t, key, row.id, now).byCreated)
  {
  }

  lemma KeyIndexedOthers(t: Tables, key: Key, id: EventId, now: Time, pc: Pc)
    requires LocalKeys(t, pc) && (pc.AppendIndex? ==> pc.own.key != key)
    ensures LocalKeys(InsertCreated(t, key, id, now), pc)
  {
  }

  lemma KeyDeleted(t: Tables, row: CreatedKey)
    requires RowsLive(t.keys, t.byCreated) && row in t.byCreated
    ensures RowsLive(DeleteKey(t, row).keys, DeleteKey(t, row).byCreated)
  {
  }

  lemma KeyDeletedOthers(t: Tables, row: CreatedKey, pc: Pc)
    requires RowsLive(t.keys, t.byCreated) && row in t.byCreated && LocalKeys(t, pc)
    requires !HoldsRow(pc, row)
    ensures LocalKeys(DeleteKey(t, row), pc)
  {
  }

  /** The page a pass reads lists each expired row once. */
  lemma PageListed(t: Tables, limit: int, cutoff: Time)
    ensures StaleListed(t.byCreated, ExpiredKeys(t, cutoff, limit), cutoff)
  {
    ExpiredKeysListed(t, cutoff, limit);
  }

  ghost predicate OthersKeys(t: Tables, procs: map<Pid, Pc>, p: Pid) {
    forall q :: q in procs && q != p ==> LocalKeys(t, procs[q])
  }

  lemma TakeStep(w: World, p: Pid, c: Choice)
    requires KeyPart(w) && p in w.procs && w.procs[p].AppendKey?
    ensures var t' := Effect(w.s, w.procs[p], c); RowsLive(t'.keys, t'.byCreated) && OthersKeys(t', w.procs, p)
    ensures LocalKeys(Effect(w.s, w.procs[p], c), Proceed(w.s, p, w.procs[p], c))
  {
    var pc := w.procs[p];
    var key := KeyOf(pc.req);
    if pc.req.key != "" && key !in w.s.t.keys {
      KeyTaken(w.s.t, key, pc.newId, c.now);
      forall q | q in w.procs && q != p ensures LocalKeys(Effect(w.s, pc, c), w.procs[q]) {
        KeyTakenOthers(w.s.t, key, KeyRow(pc.newId, c.now), w.procs[q]);
      }
    }
  }

  lemma IndexStep(w: World, p: Pid, c: Choice)
    requires KeyInv(w) && p in w.procs && w.procs[p].AppendIndex? && w.procs[p].created <= c.now
    ensures var t' := Effect(w.s, w.procs[p], c); RowsLive(t'.keys, t'.byCreated) && OthersKeys(t', w.procs, p)
  {
    var pc := w.procs[p];
    KeyIndexed(w.s.t, pc.own.key, KeyRow(pc.newId, pc.created), c.now);
    forall q | q in w.procs && q != p ensures LocalKeys(Effect(w.s, pc, c), w.procs[q]) {
      assert PcInv(w.s, p, pc) && PcInv(w.s, q, w.procs[q]);
      KeyIndexedOthers(w.s.t, pc.own.key, pc.newId, c.now, w.procs[q]);
    }
  }

  lemma DeleteOthers(t: Tables, procs: map<Pid, Pc>, p: Pid, row: CreatedKey)
    requires RowsLive(t.keys, t.byCreated) && row in t.byCreated && LocalsKeys(t, procs)
    requires forall q :: q in procs && q != p ==> !HoldsRow(procs[q], row)
    ensures OthersKeys(DeleteKey(t, row), procs, p)
  {
    forall q | q in procs && q != p ensures LocalKeys(DeleteKey(t, row), procs[q]) {
      KeyDeletedOthers(t, row, procs[q]);
    }
  }

  lemma DeleteStep(w: World, p: Pid, c: Choice)
    requires KeyPart(w) && PassesApart(w) && p in w.procs && Deleting(w.procs[p])
    ensures var t' := Effect(w.s, w.procs[p], c); RowsLive(t'.keys, t'.byCreated) && OthersKeys(t', w.procs, p)
  {
    var t, pc := w.s.t, w.procs[p];
    assert pc.stale[0] in t.byCreated by {
      assert LocalKeys(t, pc);
      StaleTail(t.byCreated, pc.stale, pc.keyCutoff);
    }
    assert Effect(w.s, pc, c) == DeleteKey(t, pc.stale[0]);
    KeyDeleted(t, pc.stale[0]);
    assert HoldsRow(pc, pc.stale[0]);
    DeleteOthers(t, w.procs, p, pc.stale[0]);
  }

  /** All other statements leave keys and index alone. */
  lemma OtherStep(s: Shared, pc: Pc, c: Choice)
    requires !pc.AppendKey? && !pc.AppendIndex? && !Deleting(pc)
    ensures Effect(s, pc, c).keys == s.t.keys && Effect(s, pc, c).byCreated == s.t.byCreated
  {
  }

  lemma DeletingEffect(s: Shared, pc: Pc, c: Choice)
    requires Deleting(pc)
    ensures Effect(s, pc, c).keys == s.t.keys - {pc.stale[0].key}
  {
  }

  lemma AppendEffect(s: Shared, pc: Pc, c: Choice)
    requires pc.AppendKey? || pc.AppendIndex?
    ensures s.t.keys.Keys <= Effect(s, pc, c).keys.Keys
  {
  }

  lemma NamedStep(s: Shared, pc: Pc, c: Choice)
    requires Named(s.t.keys) && (pc.AppendKey? ==> pc.req.row.body.stream != "")
    ensures Named(Effect(s, pc, c).keys)
  {
    if Deleting(pc) {
      DeletingEffect(s, pc, c);
    } else if !pc.AppendKey? && !pc.AppendIndex? {
      OtherStep(s, pc, c);
    }
  }

  lemma LocalSame(t: Tables, t': Tables, pc: Pc)
    requires LocalKeys(t, pc) && t'.keys == t.keys && t'.byCreated == t.byCreated
    ensures LocalKeys(t', pc)
  {
  }

  lemma EffectKeeps(w: World, p: Pid, c: Choice)
    requires KeyInv(w) && PassesApart(w) && p in w.procs && ClockOk(w, Move(p, c))
    ensures var t' := Effect(w.s, w.procs[p], c); RowsLive(t'.keys, t'.byCreated) && OthersKeys(t', w.procs, p)
  {
    var pc := w.procs[p];
    if pc.AppendKey? {
      TakeStep(w, p, c);
    } else if pc.AppendIndex? {
      IndexStep(w, p, c);
    } else if Deleting(pc) {
      DeleteStep(w, p, c);
    } else {
      OtherStep(w.s, pc, c);
      forall q | q in w.procs && q != p ensures LocalKeys(Effect(w.s, pc, c), w.procs[q]) {
        LocalSame(w.s.t, Effect(w.s, pc, c), w.procs[q]);
      }
    }
  }

  lemma ErrorLocal(t: Tables, pc: Pc)
    requires LocalKeys(t, pc)
    ensures LocalKeys(t, OnError(pc))
  {
    if Deleting(pc) { StaleTail(t.byCreated, pc.stale, pc.keyCutoff); }
  }

  predicate SpeaksOfKeys(pc: Pc) {
    pc.AppendKey? || pc.AppendIndex? || pc.CleanKeys?
  }

  /** Only taking a key and reading or working off a page lead to a state with something to say. */
  lemma SilentProceed(s: Shared, p: Pid, pc: Pc, c: Choice)
    requires !pc.AppendKey? && !pc.CleanFetch? && !pc.CleanKeys?
    ensures !SpeaksOfKeys(Proceed(s, p, pc, c))
  {
  }

  lemma SilentError(pc: Pc)
    requires !pc.CleanKeys?
    ensures !SpeaksOfKeys(OnError(pc))
  {
  }

  lemma FetchLocal(s: Shared, p: Pid, pc: Pc, c: Choice)
    requires pc.CleanFetch?
    ensures LocalKeys(Effect(s, pc, c), Proceed(s, p, pc, c))
  {
    PageListed(s.t, pc.limit, pc.keyCutoff);
  }

  lemma DeleteLocal(s: Shared, p: Pid, pc: Pc, c: Choice)
    requires LocalKeys(s.t, pc) && pc.CleanKeys?
    ensures LocalKeys(Effect(s, pc, c), Proceed(s, p, pc, c))
    ensures LocalKeys(Effect(s, pc, c), OnError(pc))
  {
    if Deleting(pc) {
      StaleTail(s.t.byCreated, pc.stale, pc.keyCutoff);
      assert Effect(s, pc, c).byCreated == s.t.byCreated - {pc.stale[0]};
    }
  }

  lemma NewLocal(w: World, p: Pid, c: Choice)
    requires KeyPart(w) && p in w.procs
    ensures LocalKeys(Effect(w.s, w.procs[p], c), Proceed(w.s, p, w.procs[p], c))
    ensures LocalKeys(Effect(w.s, w.procs[p], c), OnError(w.procs[p]))
  {
    var pc := w.procs[p];
    if pc.CleanKeys? {
      assert LocalKeys(w.s.t, pc);
      DeleteLocal(w.s, p, pc, c);
    } else {
      SilentError(pc);
      if pc.AppendKey? {
        TakeStep(w, p, c);
      } else if pc.CleanFetch? {
        FetchLocal(w.s, p, pc, c);
      } else {
        SilentProceed(w.s, p, pc, c);
      }
    }
  }

  /** Everything the next world has to say about keys, after p did its effect or nothing. */
  lemma Gathered(t: Tables, procs: map<Pid, Pc>, p: Pid, pc: Pc)
    requires OthersKeys(t, procs, p) && LocalKeys(t, pc)
    ensures LocalsKeys(t, procs[p := pc])
  {
  }

  /** A move without effect on the tables. */
  lemma IdleKeeps(w: World, p: Pid, c: Choice)
    requires KeyPart(w) && p in w.procs && (w.procs[p].Publish? || c.fault.Refused?)
    ensures LocalsKeys(w.s.t, w.procs[p := StepPc(w.s, p, w.procs[p], c)])
  {
    var pc := w.procs[p];
    assert LocalKeys(w.s.t, pc);
    ErrorLocal(w.s.t, pc);
    assert LocalKeys(w.s.t, StepPc(w.s, p, pc, c));
    Gathered(w.s.t, w.procs, p, StepPc(w.s, p, pc, c));
  }

  lemma MoveKeeps(w: World, p: Pid, c: Choice)
    requires KeyInv(w) && PassesApart(w) && p in w.procs && ClockOk(w, Move(p, c))
    ensures var t' := Step(w.s, p, w.procs[p], c).t;
            RowsLive(t'.keys, t'.byCreated) && Named(t'.keys) && LocalsKeys(t', w.procs[p := StepPc(w.s, p, w.procs[p], c)])
  {
    StepTables(w.s, p, w.procs[p], c);
    if w.procs[p].Publish? || c.fault.Refused? {
      IdleKeeps(w, p, c);
    } else {
      assert LocalKeys(w.s.t, w.procs[p]);
      NamedStep(w.s, w.procs[p], c);
      EffectKeeps(w, p, c);
      EffectGathered(w, p, c);
    }
  }

  lemma EffectGathered(w: World, p: Pid, c: Choice)
    requires KeyPart(w) && p in w.procs && !w.procs[p].Publish? && !c.fault.Refused? && OthersKeys(Effect(w.s, w.procs[p], c), w.procs, p)
    ensures LocalsKeys(Effect(w.s, w.procs[p], c), w.procs[p := StepPc(w.s, p, w.procs[p], c)])
  {
    NewLocal(w, p, c);
    assert LocalKeys(Effect(w.s, w.procs[p], c), StepPc(w.s, p, w.procs[p], c));
    Gathered(Effect(w.s, w.procs[p], c), w.procs, p, StepPc(w.s, p, w.procs[p], c));
  }

  lemma NextKeepsKeys(w: World, e: Event)
    requires KeyInv(w) && PassesApart(w) && Enabled(w, e) && ClockOk(w, e)
    ensures KeyInv(Next(w, e))
  {
    NextKeeps(w, e);
    if e.Move? {
      MoveKeeps(w, e.p, e.c);
    } else {
      OtherKeeps(w, e);
    }
  }

  lemma OtherKeeps(w: World, e: Event)
    requires KeyPart(w) && Enabled(w, e) && !e.Move?
    ensures KeyPart(Next(w, e))
  {
    var w' := Next(w, e);
    forall q | q in w'.procs ensures LocalKeys(w'.s.t, w'.procs[q]) {
      if q != e.p { assert q in w.procs; }
    }
  }

  /** Along every orderly run: each by-created row names a live key of the same event, created no
      later than the row says. */
  lemma {:induction false} IndexNamesLiveKeys(w: World, run: seq<Event>)
    requires KeyInv(w) && Legal(w, run) && Orderly(w, run)
    ensures KeyInv(After(w, run)) && PassesApart(After(w, run))
    decreases |run|
  {
    if run != [] {
      NextKeepsKeys(w, run[0]);
      IndexNamesLiveKeys(Next(w, run[0]), run[1..]);
    }
  }

  lemma InitialKeys(cfg: Config)
    requires Sound(cfg)
    ensures KeyInv(Initial(cfg))
  {
    InitialInv(cfg);
  }

  /** In every orderly run a key disappears only through a cleanup pass, and only if the key
      itself was created before the cutoff of that pass. */
  lemma OnlyExpiredKeysRemoved(cfg: Config, run: seq<Event>, e: Event, key: Key)
    requires Sound(cfg) && Legal(Initial(cfg), run) && Orderly(Initial(cfg), run)
    requires var w := After(Initial(cfg), run); Enabled(w, e) && key in w.s.t.keys && key !in Next(w, e).s.t.keys
    ensures var w := After(Initial(cfg), run);
            && e.Move? && w.procs[e.p].CleanKeys? && w.procs[e.p].stale != []
            && w.procs[e.p].stale[0].key == key && w.s.t.keys[key].createdAt < w.procs[e.p].keyCutoff
  {
    InitialKeys(cfg);
    IndexNamesLiveKeys(Initial(cfg), run);
    var w := After(Initial(cfg), run);
    assert KeyPart(w);
    RemovedBy(w, e, key);
  }

  lemma RemovedBy(w: World, e: Event, key: Key)
    requires KeyPart(w) && Enabled(w, e) && key in w.s.t.keys && key !in Next(w, e).s.t.keys
    ensures e.Move? && Deleting(w.procs[e.p]) && w.procs[e.p].stale[0].key == key && w.s.t.keys[key].createdAt < w.procs[e.p].keyCutoff
  {
    if e.Move? {
      var pc := w.procs[e.p];
      StepTables(w.s, e.p, pc, e.c);
      assert LocalKeys(w.s.t, pc);
      RemovesKey(w.s, pc, e.c, key);
      StaleTail(w.s.t.byCreated, pc.stale, pc.keyCutoff);
    }
  }

  lemma RemovesKey(s: Shared, pc: Pc, c: Choice, key: Key)
    requires key in s.t.keys
    ensures key !in Effect(s, pc, c).keys <==> pc.CleanKeys? && pc.stale != [] && pc.stale[0].key == key
  {
    if Deleting(pc) {
      DeletingEffect(s, pc, c);
    } else if pc.AppendKey? || pc.AppendIndex? {
      AppendEffect(s, pc, c);
    } else {
      OtherStep(s, pc, c);
    }
  }
}
