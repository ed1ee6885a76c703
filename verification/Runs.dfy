/** Tools to build runs: the choices used in them, joining runs, and working off a cleanup list. */
module Runs {
  import opened Schema
  import opened Protocol

  /** A fine reply at a given clock reading. */
  function At(now: Time): Choice {
    Choice(now, Fine, false, 0, "", Delivery(NoId, "", ""))
  }

  /** The statement is refused. */
  const REFUSED: Choice := Choice(0, Refused, true, 0, "", Delivery(NoId, "", ""))

  /** A run with one more event. */
  lemma {:induction false} Extend(w: World, run: seq<Event>, e: Event)
    requires Legal(w, run) && Enabled(After(w, run), e)
    ensures Legal(w, run + [e]) && After(w, run + [e]) == Next(After(w, run), e)
    decreases |run|
  {
    if run == [] {
      assert run + [e] == [e];
    } else {
      assert (run + [e])[0] == run[0] && (run + [e])[1..] == run[1..] + [e];
      Extend(Next(w, run[0]), run[1..], e);
    }
  }

  lemma One(w: World, e: Event)
    requires Enabled(w, e)
    ensures Legal(w, [e]) && After(w, [e]) == Next(w, e)
  {
    assert [e][1..] == [];
  }

  lemma Two(w: World, e1: Event, e2: Event)
    requires Enabled(w, e1) && Enabled(Next(w, e1), e2)
    ensures Legal(w, [e1, e2]) && After(w, [e1, e2]) == Next(Next(w, e1), e2)
  {
    assert [e1, e2][1..] == [e2] && [e2][1..] == [];
    assert After(Next(w, e1), [e2]) == Next(Next(w, e1), e2);
  }

  lemma {:induction false} Join(w: World, a: seq<Event>, b: seq<Event>)
    requires Legal(w, a) && Legal(After(w, a), b)
    ensures Legal(w, a + b) && After(w, a + b) == After(After(w, a), b)
    decreases |a|
  {
    if a == [] {
      assert a + b == b;
    } else {
      assert (a + b)[0] == a[0] && (a + b)[1..] == a[1..] + b;
      Join(Next(w, a[0]), a[1..], b);
    }
  }

  /** A pass of p that has the row at the head of its list, all else as in w. */
  predicate AtRow(w: World, w': World, p: Pid, row: CreatedKey) {
    && p in w.procs && w.procs[p].CleanKeys?
    && w'.s == w.s && p in w'.procs && w'.procs == w.procs[p := w'.procs[p]]
    && w'.procs[p].CleanKeys? && w'.procs[p].keyCutoff == w.procs[p].keyCutoff
    && w'.procs[p].stale != [] && w'.procs[p].stale[0] == row
  }

  lemma SkipOne(w: World, p: Pid)
    requires p in w.procs && w.procs[p].CleanKeys? && w.procs[p].stale != []
    ensures var e := Move(p, REFUSED); var pc := w.procs[p];
            Enabled(w, e) && Next(w, e) == w.(procs := w.procs[p := pc.(stale := pc.stale[1..])])
  {
  }

  /** Only passes move, working off their lists. */
  predicate WorksOff(w: World, run: seq<Event>)
    requires Legal(w, run)
    decreases |run|
  {
    run == [] || (run[0].Move? && w.procs[run[0].p].CleanKeys? && WorksOff(Next(w, run[0]), run[1..]))
  }

  /** A pass reaches a row of its list by failing on the rows before it. */
  lemma {:induction false} SkipTo(w: World, p: Pid, row: CreatedKey) returns (run: seq<Event>)
    requires p in w.procs && w.procs[p].CleanKeys? && row in w.procs[p].stale
    ensures Legal(w, run) && AtRow(w, After(w, run), p, row) && WorksOff(w, run)
    decreases |w.procs[p].stale|
  {
    var stale := w.procs[p].stale;
    if stale[0] == row {
      run := [];
    } else {
      SkipOne(w, p);
      var e := Move(p, REFUSED);
      assert row in stale[1..];
      var rest := SkipTo(Next(w, e), p, row);
      run := [e] + rest;
      assert run[0] == e && run[1..] == rest;
    }
  }

  /** A pass deletes the key at the head of its list. */
  lemma DeleteHead(w: World, p: Pid)
    requires p in w.procs && w.procs[p].CleanKeys? && w.procs[p].stale != []
    ensures var e := Move(p, At(0)); var w' := Next(w, e);
            && Enabled(w, e) && w'.s.t.keys == w.s.t.keys - {w.procs[p].stale[0].key}
            && p in w'.procs && w'.procs == w.procs[p := w'.procs[p]]
  {
  }
}
