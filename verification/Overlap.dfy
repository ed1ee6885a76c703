/** Exactly when cleanup passes that are under way are harmless: as long as no further page is
    read, they remove only expired keys if and only if no two of them hold the same row. */
module Overlap {
  import opened Schema
  import opened Statements
  import opened Protocol
  import opened Invariant
  import opened Moves
  import opened KeyCleanup
  import opened Runs
  import opened Collections

  predicate ReadsPage(w: World, e: Event) {
    e.Move? && e.p in w.procs && w.procs[e.p].CleanFetch?
  }

  /** No further page is read, and the clock does not run backwards inside an append. */
  predicate Settled(w: World, run: seq<Event>)
    requires Legal(w, run)
    decreases |run|
  {
    run == [] || (ClockOk(w, run[0]) && !ReadsPage(w, run[0]) && Settled(Next(w, run[0]), run[1..]))
  }

  /** The event is the deletion of a key created at or after the cutoff of the pass. */
  predicate RemovesYoung(w: World, e: Event) {
    && e.Move? && e.p in w.procs && !e.c.fault.Refused? && Deleting(w.procs[e.p])
    && var pc := w.procs[e.p];
       pc.stale[0].key in w.s.t.keys && w.s.t.keys[pc.stale[0].key].createdAt >= pc.keyCutoff
  }

  ghost predicate OnlyExpiredFrom(w: World) {
    forall run, e :: Legal(w, run) && Settled(w, run) && Enabled(After(w, run), e) ==> !RemovesYoung(After(w, run), e)
  }

  // ---------- passes apart stay apart and remove only expired keys ----------

  lemma StaleShrinks(s: Shared, p: Pid, pc: Pc, c: Choice, row: CreatedKey)
    requires !pc.CleanFetch? && HoldsRow(StepPc(s, p, pc, c), row)
    ensures HoldsRow(pc, row)
  {
    if !pc.CleanKeys? {
      SilentError(pc);
      if !pc.Publish? && !pc.AppendKey? { SilentProceed(s, p, pc, c); }
    }
  }

  lemma ApartKept(w: World, e: Event)
    requires PassesApart(w) && Enabled(w, e) && !ReadsPage(w, e)
    ensures PassesApart(Next(w, e))
  {
    var w' := Next(w, e);
    forall p, k | p in w'.procs && HoldsRow(w'.procs[p], k) ensures p in w.procs && HoldsRow(w.procs[p], k) {
      if e.Move? && p == e.p { StaleShrinks(w.s, p, w.procs[p], e.c, k); }
    }
  }

  lemma {:induction false} ApartThroughout(w: World, run: seq<Event>)
    requires KeyInv(w) && PassesApart(w) && Legal(w, run) && Settled(w, run)
    ensures KeyInv(After(w, run)) && PassesApart(After(w, run))
    decreases |run|
  {
    if run != [] {
      NextKeepsKeys(w, run[0]);
      ApartKept(w, run[0]);
      ApartThroughout(Next(w, run[0]), run[1..]);
    }
  }

  lemma HeldExpired(w: World, e: Event)
    requires KeyPart(w) && Enabled(w, e)
    ensures !RemovesYoung(w, e)
  {
    if RemovesYoung(w, e) {
      var pc := w.procs[e.p];
      assert LocalKeys(w.s.t, pc);
      StaleTail(w.s.t.byCreated, pc.stale, pc.keyCutoff);
    }
  }

  // ---------- passes that share a row can remove a fresh key ----------

  lemma {:induction false} WorkSettled(w: World, run: seq<Event>)
    requires Legal(w, run) && WorksOff(w, run)
    ensures Settled(w, run)
    decreases |run|
  {
    if run != [] { WorkSettled(Next(w, run[0]), run[1..]); }
  }

  lemma {:induction false} SettledJoin(w: World, a: seq<Event>, b: seq<Event>)
    requires Legal(w, a) && Legal(After(w, a), b) && Settled(w, a) && Settled(After(w, a), b)
    ensures Legal(w, a + b) && After(w, a + b) == After(After(w, a), b) && Settled(w, a + b)
    decreases |a|
  {
    Join(w, a, b);
    if a == [] {
      assert a + b == b;
    } else {
      assert (a + b)[0] == a[0] && (a + b)[1..] == a[1..] + b;
      SettledJoin(Next(w, a[0]), a[1..], b);
    }
  }

  /** The request that takes a key. */
  function Taking(key: Key): Request {
    Request(key.name, EventRow(0, Body(key.stream, "", "", "")))
  }

  lemma Taken(w: World, x: Pid, id: EventId, key: Key, now: Time)
    requires key !in w.s.t.keys && key.name != "" && x in w.procs && w.procs[x] == AppendKey(Taking(key), id)
    ensures var e := Move(x, At(now)); var w' := Next(w, e);
            && Enabled(w, e) && key in w'.s.t.keys && w'.s.t.keys[key].createdAt == now
            && x in w'.procs && w'.procs == w.procs[x := w'.procs[x]]
  {
  }

  /** A new publisher takes a free key at a given time. */
  lemma Retake(w: World, key: Key, now: Time) returns (run: seq<Event>, x: Pid)
    requires key !in w.s.t.keys && key.name != "" && key.stream != ""
    ensures Legal(w, run) && Settled(w, run)
    ensures var w' := After(w, run);
            && key in w'.s.t.keys && w'.s.t.keys[key].createdAt == now
            && x !in w.procs && x in w'.procs && w'.procs == w.procs[x := w'.procs[x]]
  {
    x := Above(w.procs.Keys);
    var id := Above(w.s.h.holder.Keys);
    var e1, e2 := Begin(x, PublishTask(Taking(key), id)), Move(x, At(now));
    var w1 := Next(w, e1);
    assert w1.procs[x] == AppendKey(Taking(key), id);
    Taken(w1, x, id, key, now);
    Two(w, e1, e2);
    run := [e1, e2];
    assert run[1..] == [e2] && Settled(Next(w1, e2), [e2][1..]);
  }

  /** A pass works itself up to a row and deletes its key. */
  lemma FirstDeletes(w: World, p: Pid, q: Pid, row: CreatedKey) returns (run: seq<Event>)
    requires p in w.procs && q in w.procs && p != q && HoldsRow(w.procs[p], row)
    ensures Legal(w, run) && Settled(w, run)
    ensures var e := Move(p, At(0)); var w1 := After(w, run);
            && Enabled(w1, e) && ClockOk(w1, e) && !ReadsPage(w1, e)
            && row.key !in Next(w1, e).s.t.keys && q in Next(w1, e).procs && Next(w1, e).procs[q] == w.procs[q]
  {
    run := SkipTo(w, p, row);
    WorkSettled(w, run);
    DeleteHead(After(w, run), p);
  }

  /** A pass works itself up to a row whose key is not expired. */
  lemma SecondDeletes(w: World, q: Pid, row: CreatedKey) returns (run: seq<Event>)
    requires q in w.procs && HoldsRow(w.procs[q], row)
    requires row.key in w.s.t.keys && w.s.t.keys[row.key].createdAt >= w.procs[q].keyCutoff
    ensures Legal(w, run) && Settled(w, run) && Enabled(After(w, run), Move(q, At(0))) && RemovesYoung(After(w, run), Move(q, At(0)))
  {
    run := SkipTo(w, q, row);
    WorkSettled(w, run);
  }

  /** Two passes that hold one row: the first deletes its key, the key is taken again, and the
      second deletes it although it is not expired. */
  lemma SharedRowRemovesYoung(w: World, p: Pid, q: Pid, row: CreatedKey) returns (run: seq<Event>, e: Event)
    requires p in w.procs && q in w.procs && p != q && HoldsRow(w.procs[p], row) && HoldsRow(w.procs[q], row)
    requires row.key.name != "" && row.key.stream != ""
    ensures Legal(w, run) && Settled(w, run) && Enabled(After(w, run), e) && RemovesYoung(After(w, run), e)
  {
    var a := FirstDeletes(w, p, q, row);
    var w2 := Next(After(w, a), Move(p, At(0)));
    var b, x := Retake(w2, row.key, w.procs[q].keyCutoff);
    var c := SecondDeletes(After(w2, b), q, row);
    e := Move(q, At(0));
    run := Joined(w, a, Move(p, At(0)), b, c);
  }

  lemma Joined(w: World, a: seq<Event>, e: Event, b: seq<Event>, c: seq<Event>) returns (run: seq<Event>)
    requires Legal(w, a) && Settled(w, a) && Enabled(After(w, a), e) && ClockOk(After(w, a), e) && !ReadsPage(After(w, a), e)
    requires var w2 := Next(After(w, a), e);
             Legal(w2, b) && Settled(w2, b) && Legal(After(w2, b), c) && Settled(After(w2, b), c)
    ensures Legal(w, run) && Settled(w, run) && After(w, run) == After(After(Next(After(w, a), e), b), c)
  {
    var w1 := After(w, a);
    var w2 := Next(w1, e);
    SettledJoin(w2, b, c);
    var rest := [e] + (b + c);
    assert rest[0] == e && rest[1..] == b + c;
    SettledJoin(w, a, rest);
    run := a + rest;
  }

  /** Passes under way remove only expired keys in every continuation that reads no further page,
      if and only if no two of them hold the same row. */
  lemma OverlapExact(w: World)
    requires KeyInv(w)
    ensures OnlyExpiredFrom(w) <==> PassesApart(w)
  {
    if PassesApart(w) {
      forall run, e | Legal(w, run) && Settled(w, run) && Enabled(After(w, run), e) ensures !RemovesYoung(After(w, run), e) {
        ApartThroughout(w, run);
        HeldExpired(After(w, run), e);
      }
    } else {
      var p, q, row :| p in w.procs && q in w.procs && HoldsRow(w.procs[p], row) && HoldsRow(w.procs[q], row) && p != q;
      assert LocalKeys(w.s.t, w.procs[p]);
      var run, e := SharedRowRemovesYoung(w, p, q, row);
    }
  }
}
