/** How cleanup passes drain expired index rows while publishers go on appending between and during
    the passes. */
module PassDrain {
  import opened Schema
  import opened Statements
  import opened Ordering
  import opened Protocol
  import opened Invariant
  import opened Moves
  import opened Operations
  import opened Cleanup
  import opened KeyCleanup
  import opened Orphans
  import opened PassRuns
  import opened Collections

  /** The by-created rows older than a cutoff. */
  function OldRows(t: Tables, cutoff: Time): set<CreatedKey> {
    set k | k in t.byCreated && k.createdAt < cutoff
  }

  /** Index rows are dated at or after the cutoff, as a clock that does not run backwards makes them. */
  predicate Late(w: World, run: seq<Event>, cutoff: Time)
    requires Legal(w, run)
    decreases |run|
  {
    run == [] || ((run[0].Move? && w.procs[run[0].p].AppendIndex? ==> run[0].c.now >= cutoff) && Late(Next(w, run[0]), run[1..], cutoff))
  }

  // ---------- old rows only go ----------

  lemma IndexAlone(s: Shared, pc: Pc, c: Choice)
    requires !pc.AppendIndex? && !Deleting(pc)
    ensures Effect(s, pc, c).byCreated == s.t.byCreated
  {
  }

  lemma OldShrinks(w: World, e: Event, cutoff: Time)
    requires Enabled(w, e) && (e.Move? && w.procs[e.p].AppendIndex? ==> e.c.now >= cutoff)
    ensures OldRows(Next(w, e).s.t, cutoff) <= OldRows(w.s.t, cutoff)
  {
    if e.Move? {
      var pc := w.procs[e.p];
      StepTables(w.s, e.p, pc, e.c);
      if pc.AppendIndex? {
        IndexEffect(w.s, pc, e.c);
      } else if Deleting(pc) {
        RemoveEffect(w.s, pc, e.c);
      } else {
        IndexAlone(w.s, pc, e.c);
      }
    }
  }

  lemma DeletedNow(w: World, e: Event, p: Pid, cutoff: Time)
    requires Enabled(w, e) && Deletes(w, e, p)
    ensures w.procs[p].stale[0] !in OldRows(Next(w, e).s.t, cutoff)
  {
    StepTables(w.s, p, w.procs[p], e.c);
    RemoveEffect(w.s, w.procs[p], e.c);
  }

  /** No old row comes in, and no row that p deleted comes back. */
  lemma {:induction false} DeletedStaysGone(w: World, run: seq<Event>, p: Pid, cutoff: Time)
    requires Legal(w, run) && Late(w, run, cutoff)
    ensures OldRows(After(w, run).s.t, cutoff) <= OldRows(w.s.t, cutoff) - Elems(DeletedBy(w, run, p))
    decreases |run|
  {
    if run != [] {
      var w1 := Next(w, run[0]);
      OldShrinks(w, run[0], cutoff);
      DeletedStaysGone(w1, run[1..], p, cutoff);
      if Deletes(w, run[0], p) {
        DeletedNow(w, run[0], p, cutoff);
        ElemsOfCons(w.procs[p].stale[0], DeletedBy(w1, run[1..], p));
      } else {
        assert DeletedBy(w, run, p) == DeletedBy(w1, run[1..], p);
      }
    }
  }

  // ---------- one pass ----------

  lemma {:induction false} ElemsSize<K>(rows: seq<K>)
    ensures |Elems(rows)| <= |rows| && (DistinctRows(rows) ==> |Elems(rows)| == |rows|)
    decreases |rows|
  {
    if rows != [] {
      ElemsSize(rows[1..]);
      assert rows == [rows[0]] + rows[1..];
      ElemsOfCons(rows[0], rows[1..]);
    }
  }

  lemma OldAreOlder(t: Tables, cutoff: Time)
    ensures OldRows(t, cutoff) == Elems(Older(CreatedRows(t), CreatedTime, cutoff))
  {
  }

  lemma OlderFirst(rows: seq<CreatedKey>, cutoff: Time)
    requires Ordered(rows, CreatedTime)
    ensures var m := |Older(rows, CreatedTime, cutoff)|;
            m <= |rows| && Older(rows, CreatedTime, cutoff) == rows[..m] && DistinctRows(rows[..m])
  {
    PassCollects(rows, CreatedTime, cutoff, |rows|);
    assert First(rows, |rows|) == rows;
  }

  /** The old rows are the first rows of the listing, and that many. */
  lemma OldFirst(t: Tables, cutoff: Time)
    ensures var rows, m := CreatedRows(t), RowsLeft(t, cutoff);
            m <= |rows| && OldRows(t, cutoff) == Elems(rows[..m]) && |OldRows(t, cutoff)| == m
  {
    CreatedListed(t);
    OlderFirst(CreatedRows(t), cutoff);
    OldAreOlder(t, cutoff);
    ElemsSize(Older(CreatedRows(t), CreatedTime, cutoff));
  }

  /** Of m distinct rows, at most m - n are not among the first n. */
  lemma Remaining(rows: seq<CreatedKey>, m: nat, n: nat, s: set<CreatedKey>)
    requires m <= |rows| && n <= |rows| && s <= Elems(rows[..m]) - Elems(rows[..n])
    ensures |s| <= Beyond(m, n)
  {
    if n <= m {
      assert rows[..m] == rows[..n] + rows[n..m];
      assert s <= Elems(rows[n..m]);
      SubsetSize(s, Elems(rows[n..m]));
      ElemsSize(rows[n..m]);
    } else {
      assert rows[..n] == rows[..m] + rows[m..n];
      assert s == {};
    }
  }

  /** p reads the page of a pass whose cutoff is no earlier than the given one. */
  predicate Fetches(w: World, e: Event, cutoff: Time, limit: int) {
    && Enabled(w, e) && e.Move? && e.c.fault.Fine? && w.procs[e.p].CleanFetch?
    && cutoff <= w.procs[e.p].keyCutoff && w.procs[e.p].limit == limit
  }

  /** A whole pass among other events: its statements work, and it has come to the end of its keys. */
  ghost predicate WholePass(w: World, e: Event, run: seq<Event>, cutoff: Time, limit: int) {
    && Fetches(w, e, cutoff, limit) && PassesApart(w)
    && Legal(Next(w, e), run) && Orderly(Next(w, e), run) && Late(Next(w, e), run, cutoff)
    && Smooth(run, e.p) && ToDelete(After(Next(w, e), run), e.p) == []
  }

  lemma FetchIdle(w: World, e: Event, cutoff: Time, limit: int)
    requires Fetches(w, e, cutoff, limit)
    ensures Next(w, e).s.t == w.s.t
  {
    StepTables(w.s, e.p, w.procs[e.p], e.c);
  }

  lemma PassBound(rows: seq<CreatedKey>, cutoff: Time, keyCutoff: Time, room: nat)
    requires TimeSorted(rows, CreatedTime) && cutoff <= keyCutoff
    ensures var m, n := |Older(rows, CreatedTime, cutoff)|, Min(room, |Older(rows, CreatedTime, keyCutoff)|);
            n <= |rows| && Beyond(m, n) == Beyond(m, room)
  {
    OlderCount(rows, CreatedTime, cutoff, keyCutoff);
  }

  /** How many rows a pass with this cutoff and limit reads. */
  function PageSize(t: Tables, keyCutoff: Time, limit: int): nat {
    Min(CleanLimit(limit), |Older(CreatedRows(t), CreatedTime, keyCutoff)|)
  }

  lemma PassRemoves(w: World, e: Event, run: seq<Event>, cutoff: Time, limit: int)
    requires KeyInv(w) && WholePass(w, e, run, cutoff, limit)
    ensures var n := PageSize(w.s.t, w.procs[e.p].keyCutoff, limit);
            && n <= |CreatedRows(w.s.t)|
            && OldRows(After(Next(w, e), run).s.t, cutoff) <= OldRows(w.s.t, cutoff) - Elems(CreatedRows(w.s.t)[..n])
  {
    PassExactAmongOthers(w, e, run);
    DeletedStaysGone(Next(w, e), run, e.p, cutoff);
    FetchIdle(w, e, cutoff, limit);
  }

  /** A page takes up to `limit` rows off the old ones. */
  lemma PageTakes(t: Tables, cutoff: Time, keyCutoff: Time, limit: int, s: set<CreatedKey>)
    requires cutoff <= keyCutoff && PageSize(t, keyCutoff, limit) <= |CreatedRows(t)|
    requires s <= OldRows(t, cutoff) - Elems(CreatedRows(t)[..PageSize(t, keyCutoff, limit)])
    ensures |s| <= Beyond(|OldRows(t, cutoff)|, CleanLimit(limit))
  {
    OldFirst(t, cutoff);
    CreatedListed(t);
    PassBound(CreatedRows(t), cutoff, keyCutoff, CleanLimit(limit));
    Remaining(CreatedRows(t), RowsLeft(t, cutoff), PageSize(t, keyCutoff, limit), s);
  }

  /** A pass takes up to `limit` of the rows that were old when it read its page, whatever is appended meanwhile. */
  lemma PassDrains(w: World, e: Event, run: seq<Event>, cutoff: Time, limit: int)
    requires KeyInv(w) && WholePass(w, e, run, cutoff, limit)
    ensures |OldRows(After(Next(w, e), run).s.t, cutoff)| <= Beyond(|OldRows(w.s.t, cutoff)|, CleanLimit(limit))
  {
    PassRemoves(w, e, run, cutoff, limit);
    PageTakes(w.s.t, cutoff, w.procs[e.p].keyCutoff, limit, OldRows(After(Next(w, e), run).s.t, cutoff));
  }

  // ---------- pass after pass ----------

  /** Any events, then the page of a pass, then the rest of that pass with whatever happens around it. */
  datatype Round = Round(before: seq<Event>, fetch: Event, rest: seq<Event>)

  ghost predicate RoundOk(w: World, r: Round, cutoff: Time, limit: int) {
    && Legal(w, r.before) && Orderly(w, r.before) && Late(w, r.before, cutoff)
    && WholePass(After(w, r.before), r.fetch, r.rest, cutoff, limit)
  }

  ghost function AfterRound(w: World, r: Round, cutoff: Time, limit: int): World
    requires RoundOk(w, r, cutoff, limit)
  {
    After(Next(After(w, r.before), r.fetch), r.rest)
  }

  /** Round after round. */
  ghost predicate RoundsOk(w: World, rounds: seq<Round>, cutoff: Time, limit: int)
    decreases |rounds|
  {
    rounds == [] || (RoundOk(w, rounds[0], cutoff, limit) && RoundsOk(AfterRound(w, rounds[0], cutoff, limit), rounds[1..], cutoff, limit))
  }

  ghost function AfterRounds(w: World, rounds: seq<Round>, cutoff: Time, limit: int): World
    requires RoundsOk(w, rounds, cutoff, limit)
    decreases |rounds|
  {
    if rounds == [] then w else AfterRounds(AfterRound(w, rounds[0], cutoff, limit), rounds[1..], cutoff, limit)
  }

  lemma RoundKeeps(w: World, r: Round, cutoff: Time, limit: int)
    requires KeyInv(w) && RoundOk(w, r, cutoff, limit)
    ensures KeyInv(AfterRound(w, r, cutoff, limit))
  {
    var w1 := After(w, r.before);
    IndexNamesLiveKeys(w, r.before);
    NextKeepsKeys(w1, r.fetch);
    IndexNamesLiveKeys(Next(w1, r.fetch), r.rest);
  }

  /** At most the old rows of w beyond the room are left in w'. */
  ghost predicate LeftBeyond(w: World, w': World, cutoff: Time, room: nat) {
    |OldRows(w'.s.t, cutoff)| <= Beyond(|OldRows(w.s.t, cutoff)|, room)
  }

  lemma LeftFurther(w: World, w1: World, w2: World, cutoff: Time, a: nat, b: nat, sum: nat)
    requires LeftBeyond(w, w1, cutoff, a) && LeftBeyond(w1, w2, cutoff, b) && sum == a + b
    ensures LeftBeyond(w, w2, cutoff, sum)
  {
  }

  lemma BeforeDrains(w: World, run: seq<Event>, cutoff: Time)
    requires Legal(w, run) && Late(w, run, cutoff)
    ensures LeftBeyond(w, After(w, run), cutoff, 0)
  {
    DeletedStaysGone(w, run, 0, cutoff);
    SubsetSize(OldRows(After(w, run).s.t, cutoff), OldRows(w.s.t, cutoff));
  }

  lemma RoundDrains(w: World, r: Round, cutoff: Time, limit: int)
    requires KeyInv(w) && RoundOk(w, r, cutoff, limit)
    ensures LeftBeyond(w, AfterRound(w, r, cutoff, limit), cutoff, CleanLimit(limit))
  {
    var w1 := After(w, r.before);
    IndexNamesLiveKeys(w, r.before);
    BeforeDrains(w, r.before, cutoff);
    PassDrains(w1, r.fetch, r.rest, cutoff, limit);
    LeftFurther(w, w1, AfterRound(w, r, cutoff, limit), cutoff, 0, CleanLimit(limit), CleanLimit(limit));
  }

  /** Rounds of cleanup keep the key invariant. */
  lemma {:induction false} RoundsKeep(w: World, rounds: seq<Round>, cutoff: Time, limit: int)
    requires KeyInv(w) && RoundsOk(w, rounds, cutoff, limit)
    ensures KeyInv(AfterRounds(w, rounds, cutoff, limit))
    decreases |rounds|
  {
    if rounds != [] {
      RoundKeeps(w, rounds[0], cutoff, limit);
      RoundsKeep(AfterRound(w, rounds[0], cutoff, limit), rounds[1..], cutoff, limit);
    }
  }

  ghost predicate AtMost(w: World, cutoff: Time, k: nat) {
    |OldRows(w.s.t, cutoff)| <= k
  }

  lemma RoundMore(w: World, r: Round, cutoff: Time, limit: int, k: nat)
    requires KeyInv(w) && RoundOk(w, r, cutoff, limit) && AtMost(w, cutoff, k)
    ensures KeyInv(AfterRound(w, r, cutoff, limit)) && AtMost(AfterRound(w, r, cutoff, limit), cutoff, Beyond(k, CleanLimit(limit)))
  {
    RoundKeeps(w, r, cutoff, limit);
    RoundDrains(w, r, cutoff, limit);
  }

  /** What n passes leave of k rows. */
  function Rest(k: nat, limit: int, n: nat): nat
    decreases n
  {
    if n == 0 then k else Rest(Beyond(k, CleanLimit(limit)), limit, n - 1)
  }

  lemma {:induction false} RestIs(k: nat, limit: int, n: nat)
    ensures Rest(k, limit, n) == Beyond(k, Capacity(limit, n))
    decreases n
  {
    if n > 0 { RestIs(Beyond(k, CleanLimit(limit)), limit, n - 1); }
  }

  lemma RoundsFirst(w: World, rounds: seq<Round>, cutoff: Time, limit: int) returns (w1: World)
    requires RoundsOk(w, rounds, cutoff, limit) && rounds != []
    ensures RoundOk(w, rounds[0], cutoff, limit) && w1 == AfterRound(w, rounds[0], cutoff, limit)
    ensures RoundsOk(w1, rounds[1..], cutoff, limit) && AfterRounds(w, rounds, cutoff, limit) == AfterRounds(w1, rounds[1..], cutoff, limit)
  {
    w1 := AfterRound(w, rounds[0], cutoff, limit);
  }

  /** The old rows fall from k on by the limit of a pass per round. */
  ghost predicate Sinks(w: World, rounds: seq<Round>, cutoff: Time, limit: int, k: nat)
    requires RoundsOk(w, rounds, cutoff, limit)
    decreases |rounds|
  {
    && AtMost(w, cutoff, k)
    && (rounds == [] || Sinks(AfterRound(w, rounds[0], cutoff, limit), rounds[1..], cutoff, limit, Beyond(k, CleanLimit(limit))))
  }

  lemma {:induction false} AllSink(w: World, rounds: seq<Round>, cutoff: Time, limit: int, k: nat)
    requires KeyInv(w) && RoundsOk(w, rounds, cutoff, limit) && AtMost(w, cutoff, k)
    ensures Sinks(w, rounds, cutoff, limit, k)
    decreases |rounds|
  {
    if rounds != [] {
      RoundMore(w, rounds[0], cutoff, limit, k);
      AllSink(AfterRound(w, rounds[0], cutoff, limit), rounds[1..], cutoff, limit, Beyond(k, CleanLimit(limit)));
    }
  }

  lemma {:induction false} SunkAfter(w: World, rounds: seq<Round>, cutoff: Time, limit: int, k: nat, n: nat, rest: nat)
    requires RoundsOk(w, rounds, cutoff, limit) && Sinks(w, rounds, cutoff, limit, k) && n == |rounds| && rest == Rest(k, limit, n)
    ensures AtMost(AfterRounds(w, rounds, cutoff, limit), cutoff, rest)
    decreases n
  {
    if rounds != [] {
      var w1 := RoundsFirst(w, rounds, cutoff, limit);
      SunkAfter(w1, rounds[1..], cutoff, limit, Beyond(k, CleanLimit(limit)), n - 1, rest);
    }
  }

  /** Any number n of rounds of cleanup among appends leave at most the old rows beyond their capacity, and keep
      the key invariant. */
  lemma RoundsDrain(w: World, rounds: seq<Round>, cutoff: Time, limit: int, n: nat)
    requires KeyInv(w) && RoundsOk(w, rounds, cutoff, limit) && n == |rounds|
    ensures KeyInv(AfterRounds(w, rounds, cutoff, limit))
    ensures LeftBeyond(w, AfterRounds(w, rounds, cutoff, limit), cutoff, Capacity(limit, n))
  {
    var k := |OldRows(w.s.t, cutoff)|;
    RoundsKeep(w, rounds, cutoff, limit);
    AllSink(w, rounds, cutoff, limit, k);
    SunkAfter(w, rounds, cutoff, limit, k, n, Rest(k, limit, n));
    RestIs(k, limit, n);
  }

  /** Once their capacity covers the rows that were old at the start, every row that is left is dated at or
      after the cutoff and names a live key, whatever was appended between and during the passes. */
  lemma RoundsDrainAll(w: World, rounds: seq<Round>, cutoff: Time, limit: int)
    requires KeyInv(w) && RoundsOk(w, rounds, cutoff, limit)
    requires |rounds| * CleanLimit(limit) >= |OldRows(w.s.t, cutoff)|
    ensures var t := AfterRounds(w, rounds, cutoff, limit).s.t;
            forall k :: k in t.byCreated ==> k.createdAt >= cutoff && k.key in t.keys && t.keys[k.key].id == t.byCreated[k]
  {
    RoundsDrain(w, rounds, cutoff, limit, |rounds|);
    CapacityIs(limit, |rounds|);
    assert |OldRows(AfterRounds(w, rounds, cutoff, limit).s.t, cutoff)| == 0;
    NoneLeft(AfterRounds(w, rounds, cutoff, limit).s.t, cutoff);
  }

  lemma NoneLeft(t: Tables, cutoff: Time)
    requires RowsLive(t.keys, t.byCreated) && |OldRows(t, cutoff)| == 0
    ensures forall k :: k in t.byCreated ==> k.createdAt >= cutoff && k.key in t.keys && t.keys[k.key].id == t.byCreated[k]
  {
    forall k | k in t.byCreated ensures k.createdAt >= cutoff {
      assert k !in OldRows(t, cutoff);
    }
  }
}
