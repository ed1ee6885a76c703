/** What one cleanup pass removes while appends and other passes go on around it. */
module PassRuns {
  import opened Schema
  import opened Statements
  import opened Protocol
  import opened Invariant
  import opened Moves
  import opened Operations
  import opened Cleanup
  import opened KeyCleanup
  import opened Collections

  /** p deletes an index row and its key, and both are there to be deleted. */
  predicate Deletes(w: World, e: Event, p: Pid) {
    && e.Move? && e.p == p && p in w.procs && !e.c.fault.Refused? && Deleting(w.procs[p])
    && w.procs[p].stale[0] in w.s.t.byCreated && w.procs[p].stale[0].key in w.s.t.keys
  }

  /** The rows p deletes along a run, in order. */
  function DeletedBy(w: World, run: seq<Event>, p: Pid): seq<CreatedKey>
    requires Legal(w, run)
    decreases |run|
  {
    if run == [] then [] else
    (if Deletes(w, run[0], p) then [w.procs[p].stale[0]] else []) + DeletedBy(Next(w, run[0]), run[1..], p)
  }

  /** All statements of p work, and p does not stop. */
  predicate Smooth(run: seq<Event>, p: Pid) {
    forall i :: 0 <= i < |run| && run[i].p == p ==> run[i].Move? && run[i].c.fault.Fine?
  }

  /** The rows p still has to delete. */
  function ToDelete(w: World, p: Pid): seq<CreatedKey> {
    if p in w.procs && w.procs[p].CleanKeys? then w.procs[p].stale else []
  }

  predicate PastKeys(pc: Pc) {
    pc.CleanDeadFetch? || pc.CleanDead? || pc.Done?
  }

  predicate InPass(w: World, p: Pid) {
    p in w.procs && (w.procs[p].CleanKeys? || PastKeys(w.procs[p]))
  }

  lemma PassMoves(w: World, e: Event, p: Pid)
    requires KeyPart(w) && InPass(w, p) && Enabled(w, e) && Smooth([e], p)
    ensures InPass(Next(w, e), p)
    ensures ToDelete(w, p) == (if Deletes(w, e, p) then [w.procs[p].stale[0]] else []) + ToDelete(Next(w, e), p)
  {
    if e.p == p {
      assert [e][0].p == p;
      var pc := w.procs[p];
      assert LocalKeys(w.s.t, pc);
      if Deleting(pc) { StaleTail(w.s.t.byCreated, pc.stale, pc.keyCutoff); }
    }
  }

  lemma {:induction false} PassWorks(w: World, run: seq<Event>, p: Pid)
    requires KeyInv(w) && InPass(w, p) && Legal(w, run) && Orderly(w, run) && Smooth(run, p)
    ensures DeletedBy(w, run, p) + ToDelete(After(w, run), p) == ToDelete(w, p)
    decreases |run|
  {
    if run != [] {
      var w1 := Next(w, run[0]);
      assert Smooth([run[0]], p) && Smooth(run[1..], p) by {
        forall i | 0 <= i < |run| - 1 && run[1..][i].p == p ensures run[1..][i].Move? && run[1..][i].c.fault.Fine? {
          assert run[1..][i] == run[i + 1];
        }
      }
      NextKeepsKeys(w, run[0]);
      PassMoves(w, run[0], p);
      PassWorks(w1, run[1..], p);
      Regroup(if Deletes(w, run[0], p) then [w.procs[p].stale[0]] else [], DeletedBy(w1, run[1..], p), ToDelete(After(w, run), p));
    }
  }

  lemma PageFetched(w: World, e: Event)
    requires Enabled(w, e) && e.Move? && e.c.fault.Fine? && w.procs[e.p].CleanFetch?
    ensures var pc := w.procs[e.p]; var w1 := Next(w, e);
            InPass(w1, e.p) && ToDelete(w1, e.p) == ExpiredKeys(w.s.t, pc.keyCutoff, pc.limit)
  {
  }

  /** In every orderly run, a pass whose statements work and that has come to the end of its keys has
      deleted, one by one and each while it was there, exactly the oldest min(limit, expired) rows of the
      moment it read its page, however appends and other passes interleave. */
  lemma PassExactAmongOthers(w: World, e: Event, run: seq<Event>)
    requires KeyInv(w) && PassesApart(w) && Enabled(w, e) && e.Move? && e.c.fault.Fine? && w.procs[e.p].CleanFetch?
    requires Legal(Next(w, e), run) && Orderly(Next(w, e), run) && Smooth(run, e.p) && ToDelete(After(Next(w, e), run), e.p) == []
    ensures var pc := w.procs[e.p];
            var rows := CreatedRows(w.s.t);
            var n := Min(if pc.limit <= 0 then 200 else pc.limit, |Older(rows, CreatedTime, pc.keyCutoff)|);
            DeletedBy(Next(w, e), run, e.p) == rows[..n]
  {
    var pc := w.procs[e.p];
    NextKeepsKeys(w, e);
    PageFetched(w, e);
    PassWorks(Next(w, e), run, e.p);
    CreatedListed(w.s.t);
    PassCollects(CreatedRows(w.s.t), CreatedTime, pc.keyCutoff, CleanLimit(pc.limit));
  }
}
