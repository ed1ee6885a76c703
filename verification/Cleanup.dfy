/** Cleanup passes that run on their own: what one pass removes, and how repeated passes drain. */
module Cleanup {
  import opened Schema
  import opened Statements
  import opened Ordering
  import opened Protocol
  import opened Operations

  predicate DistinctRows<K(==)>(rows: seq<K>)
    decreases |rows|
  {
    rows == [] || (rows[0] !in rows[1..] && DistinctRows(rows[1..]))
  }

  ghost predicate TimeSorted<K>(rows: seq<K>, time: K -> Time) {
    forall i, j :: 0 <= i < j < |rows| ==> time(rows[i]) <= time(rows[j])
  }

  /** In a listing sorted by time the expired rows are a prefix. */
  lemma {:induction false} OlderIsPrefix<K(!new)>(rows: seq<K>, time: K -> Time, cutoff: Time)
    requires TimeSorted(rows, time)
    ensures Older(rows, time, cutoff) <= rows
    decreases |rows|
  {
    if rows != [] {
      var rest := rows[1..];
      OlderIsPrefix(rest, time, cutoff);
      if time(rows[0]) >= cutoff {
        NoneOlder(rest, time, cutoff);
      }
    }
  }

  lemma {:induction false} NoneOlder<K(!new)>(rows: seq<K>, time: K -> Time, cutoff: Time)
    requires forall i :: 0 <= i < |rows| ==> time(rows[i]) >= cutoff
    ensures Older(rows, time, cutoff) == []
    decreases |rows|
  {
    if rows != [] { NoneOlder(rows[1..], time, cutoff); }
  }

  lemma OlderCons<K(!new)>(x: K, rest: seq<K>, time: K -> Time, cutoff: Time)
    ensures var older := Older(rest, time, cutoff);
            Older([x] + rest, time, cutoff) == if time(x) < cutoff then [x] + older else older
  {
    assert ([x] + rest)[1..] == rest;
  }

  lemma FirstCons<K>(x: K, rest: seq<K>, n: nat)
    requires n > 0
    ensures First([x] + rest, n) == [x] + First(rest, n - 1)
  {
  }

  lemma PageCons<K(!new)>(x: K, rest: seq<K>, time: K -> Time, cutoff: Time, n: nat)
    requires n > 0 && time(x) < cutoff && Older(First(rest, n - 1), time, cutoff) == First(Older(rest, time, cutoff), n - 1)
    ensures Older(First([x] + rest, n), time, cutoff) == First(Older([x] + rest, time, cutoff), n)
  {
    FirstCons(x, rest, n);
    OlderCons(x, rest, time, cutoff);
    OlderCons(x, First(rest, n - 1), time, cutoff);
    FirstCons(x, Older(rest, time, cutoff), n);
  }

  lemma SortedRest<K(!new)>(rows: seq<K>, time: K -> Time)
    requires TimeSorted(rows, time) && rows != []
    ensures TimeSorted(rows[1..], time)
    ensures forall k :: k in rows ==> time(rows[0]) <= time(k)
  {
  }

  /** Once the first row is fresh, so are all. */
  lemma FreshFrom<K(!new)>(rows: seq<K>, time: K -> Time, cutoff: Time, n: nat)
    requires rows != [] && TimeSorted(rows, time) && time(rows[0]) >= cutoff
    ensures Older(rows, time, cutoff) == [] && Older(First(rows, n), time, cutoff) == []
  {
    SortedRest(rows, time);
    NoneOlder(rows, time, cutoff);
    NoneOlder(First(rows, n), time, cutoff);
  }

  /** Filtering the first n rows of a sorted listing gives the first n expired rows. */
  lemma {:induction false} OlderOfPage<K(!new)>(rows: seq<K>, time: K -> Time, cutoff: Time, n: nat)
    requires TimeSorted(rows, time)
    ensures Older(First(rows, n), time, cutoff) == First(Older(rows, time, cutoff), n)
    decreases |rows|
  {
    if rows == [] || n == 0 {
    } else if time(rows[0]) >= cutoff {
      FreshFrom(rows, time, cutoff, n);
    } else {
      var x, rest := rows[0], rows[1..];
      assert rows == [x] + rest;
      SortedRest(rows, time);
      OlderOfPage(rest, time, cutoff, n - 1);
      PageCons(x, rest, time, cutoff, n);
    }
  }

  lemma {:induction false} DistinctFrom<K(!new)>(rows: seq<K>)
    requires forall i, j :: 0 <= i < j < |rows| ==> rows[i] != rows[j]
    ensures DistinctRows(rows)
    decreases |rows|
  {
    if rows != [] { DistinctFrom(rows[1..]); }
  }

  ghost predicate OrdersByTime<K(!new)>(less: (K, K) -> bool, time: K -> Time) {
    forall a, b :: less(a, b) ==> time(a) <= time(b)
  }

  /** A partition clustered by time first lists its rows by time, each once. */
  lemma ListingByTime<K(!new)>(keys: set<K>, less: (K, K) -> bool, time: K -> Time)
    requires StrictTotal(less) && OrdersByTime(less, time)
    ensures Ordered(Listing(keys, less), time)
  {
    var rows := Listing(keys, less);
    forall i, j | 0 <= i < j < |rows| ensures time(rows[i]) <= time(rows[j]) && rows[i] != rows[j] {
      ListingSorted(keys, less, i, j);
    }
  }

  ghost predicate Ordered<K>(rows: seq<K>, time: K -> Time) {
    TimeSorted(rows, time) && forall i, j :: 0 <= i < j < |rows| ==> rows[i] != rows[j]
  }

  /** What a pass collects: the first n expired rows of the partition, each once. */
  lemma PassCollects<K(!new)>(rows: seq<K>, time: K -> Time, cutoff: Time, n: nat)
    requires Ordered(rows, time)
    ensures var expired := Older(rows, time, cutoff);
            && Older(First(rows, n), time, cutoff) == rows[..Min(n, |expired|)]
            && DistinctRows(rows[..Min(n, |expired|)])
  {
    OlderIsPrefix(rows, time, cutoff);
    OlderOfPage(rows, time, cutoff, n);
    DistinctFrom(rows[..Min(n, |Older(rows, time, cutoff)|)]);
  }

  lemma CreatedListed(t: Tables)
    ensures Ordered(CreatedRows(t), CreatedTime)
  {
    CreatedOrder();
    ListingByTime(t.byCreated.Keys, CreatedLess, CreatedTime);
  }

  /** Keys indexed at the same time come by stream, then by name, in text order. */
  lemma CreatedTies(t: Tables, i: nat, j: nat)
    requires i < j < |CreatedRows(t)| && CreatedRows(t)[i].createdAt == CreatedRows(t)[j].createdAt
    ensures var a, b := CreatedRows(t)[i].key, CreatedRows(t)[j].key;
            TextLess(a.stream, b.stream) || (a.stream == b.stream && TextLess(a.name, b.name))
  {
    CreatedOrder();
    ListingSorted(t.byCreated.Keys, CreatedLess, i, j);
  }

  lemma DeadListed(t: Tables)
    ensures Ordered(DeadRows(t), SlotTime)
  {
    SlotOrder();
    ListingByTime(t.deadByTime.Keys, SlotLess, SlotTime);
  }

  lemma CreatedDrop(t: Tables, t': Tables, n: nat)
    requires n <= |CreatedRows(t)| && t'.byCreated == t.byCreated - Elems(CreatedRows(t)[..n])
    ensures CreatedRows(t') == CreatedRows(t)[n..]
  {
    CreatedOrder();
    ListingDrop(t.byCreated.Keys, CreatedLess, n);
    assert t'.byCreated.Keys == t.byCreated.Keys - Elems(CreatedRows(t)[..n]);
  }

  lemma DeadDrop(t: Tables, t': Tables, n: nat)
    requires n <= |DeadRows(t)| && t'.deadByTime == t.deadByTime - Elems(DeadRows(t)[..n])
    ensures DeadRows(t') == DeadRows(t)[n..]
  {
    SlotOrder();
    ListingDrop(t.deadByTime.Keys, SlotLess, n);
    assert t'.deadByTime.Keys == t.deadByTime.Keys - Elems(DeadRows(t)[..n]);
  }

  lemma ExpiredLettersListed(t: Tables, cutoff: Time, limit: int)
    ensures DistinctRows(ExpiredLetters(t, cutoff, limit))
    ensures forall k :: k in ExpiredLetters(t, cutoff, limit) ==> k in t.deadByTime
  {
    DeadListed(t);
    PassCollects(DeadRows(t), SlotTime, cutoff, CleanLimit(limit));
    assert forall k :: k in ExpiredLetters(t, cutoff, limit) ==> k in DeadRows(t);
  }

  lemma ExpiredKeysListed(t: Tables, cutoff: Time, limit: int)
    ensures DistinctRows(ExpiredKeys(t, cutoff, limit))
    ensures forall k :: k in ExpiredKeys(t, cutoff, limit) ==> k in t.byCreated
    ensures forall k :: k in ExpiredKeys(t, cutoff, limit) ==> k.createdAt < cutoff
  {
    CreatedListed(t);
    PassCollects(CreatedRows(t), CreatedTime, cutoff, CleanLimit(limit));
    assert forall k :: k in ExpiredKeys(t, cutoff, limit) ==> k in CreatedRows(t);
  }

  // ---------- one pass ----------

  function Names(rows: seq<CreatedKey>): set<Key> {
    set k | k in rows :: k.key
  }

  function Ids(rows: seq<Slot>): set<EventId> {
    set k | k in rows :: k.id
  }

  lemma {:induction false} DeleteKeysAll(t: Tables, rows: seq<CreatedKey>, works: nat -> Fault, at: nat)
    requires forall i: nat :: works(i).Fine?
    ensures DeleteKeys(t, rows, works, at) == (t.(keys := t.keys - Names(rows), byCreated := t.byCreated - Elems(rows)), |rows|)
    decreases |rows|
  {
    if rows == [] {
      assert t.keys - Names(rows) == t.keys && t.byCreated - Elems(rows) == t.byCreated;
    } else {
      var t1 := DeleteKey(t, rows[0]);
      DeleteKeysAll(t1, rows[1..], works, at + 1);
      assert rows == [rows[0]] + rows[1..];
      ElemsOfCons(rows[0], rows[1..]);
      NamesCons(rows);
      assert t1.keys - Names(rows[1..]) == t.keys - Names(rows);
      assert t1.byCreated - Elems(rows[1..]) == t.byCreated - Elems(rows);
    }
  }

  /** No reply is lost: a statement executes if and only if it is acknowledged. */
  ghost predicate NothingLost(works: nat -> Fault) {
    forall i: nat :: !works(i).Lost?
  }

  lemma KeyGone(t: Tables, rows: seq<CreatedKey>)
    requires rows != [] && DistinctRows(rows) && forall k :: k in rows ==> k in t.byCreated
    ensures var t1 := DeleteKey(t, rows[0]); |t1.byCreated| == |t.byCreated| - 1 && t1.deadByTime == t.deadByTime
    ensures forall k :: k in rows[1..] ==> k in DeleteKey(t, rows[0]).byCreated && k in t.byCreated
  {
    OneLess(t.byCreated, rows[0]);
  }

  lemma LetterGone(t: Tables, rows: seq<Slot>)
    requires rows != [] && DistinctRows(rows) && forall k :: k in rows ==> k in t.deadByTime
    ensures var t1 := DeleteDeadLetter(t, rows[0]); |t1.deadByTime| == |t.deadByTime| - 1 && t1.byCreated == t.byCreated
    ensures forall k :: k in rows[1..] ==> k in DeleteDeadLetter(t, rows[0]).deadByTime && k in t.deadByTime
  {
    OneLess(t.deadByTime, rows[0]);
  }

  /** How many key rows leave the index: at least as many as are counted, and no more if no reply is lost. */
  lemma {:induction false} KeysCounted(t: Tables, rows: seq<CreatedKey>, works: nat -> Fault, at: nat)
    requires DistinctRows(rows) && forall k :: k in rows ==> k in t.byCreated
    ensures var (t', n) := DeleteKeys(t, rows, works, at);
            && t'.deadByTime == t.deadByTime && |t'.byCreated| + n <= |t.byCreated|
            && (NothingLost(works) ==> |t'.byCreated| + n == |t.byCreated|)
    decreases |rows|
  {
    if rows != [] {
      var t1 := if !works(at).Refused? then DeleteKey(t, rows[0]) else t;
      KeyGone(t, rows);
      KeysCounted(t1, rows[1..], works, at + 1);
    }
  }

  lemma OneLess<K, V>(m: map<K, V>, k: K)
    requires k in m
    ensures |m - {k}| == |m| - 1
  {
    assert (m - {k}).Keys == m.Keys - {k};
    assert |m - {k}| == |(m - {k}).Keys| && |m| == |m.Keys|;
  }

  lemma {:induction false} LettersCounted(t: Tables, rows: seq<Slot>, works: nat -> Fault, at: nat)
    requires DistinctRows(rows) && forall k :: k in rows ==> k in t.deadByTime
    ensures var (t', n) := DeleteDeadLetters(t, rows, works, at);
            && t'.byCreated == t.byCreated && |t'.deadByTime| + n <= |t.deadByTime|
            && (NothingLost(works) ==> |t'.deadByTime| + n == |t.deadByTime|)
    decreases |rows|
  {
    if rows != [] {
      var t1 := if !works(at).Refused? then DeleteDeadLetter(t, rows[0]) else t;
      LetterGone(t, rows);
      LettersCounted(t1, rows[1..], works, at + 1);
    }
  }

  /** What a pass returns: the rows that left the two indexes, except those whose reply was lost. */
  lemma CleanedCounts(t: Tables, keyCutoff: Time, deadCutoff: Time, limit: int, keyPage: Fault, keyWorks: nat -> Fault,
                      deadPage: Fault, deadWorks: nat -> Fault)
    ensures var (t', r) := CleanedUnder(t, keyCutoff, deadCutoff, limit, keyPage, keyWorks, deadPage, deadWorks);
            && |t'.byCreated| + r.keys <= |t.byCreated| && (NothingLost(keyWorks) ==> |t'.byCreated| + r.keys == |t.byCreated|)
            && |t'.deadByTime| + r.letters <= |t.deadByTime| && (NothingLost(deadWorks) ==> |t'.deadByTime| + r.letters == |t.deadByTime|)
  {
    var rows := ExpiredKeys(t, keyCutoff, limit);
    var t1 := DeleteKeys(t, rows, keyWorks, 0).0;
    ExpiredKeysListed(t, keyCutoff, limit);
    KeysCounted(t, rows, keyWorks, 0);
    ExpiredLettersListed(t1, deadCutoff, limit);
    LettersCounted(t1, ExpiredLetters(t1, deadCutoff, limit), deadWorks, 0);
  }

  lemma NamesCons(rows: seq<CreatedKey>)
    requires rows != []
    ensures Names(rows) == {rows[0].key} + Names(rows[1..])
  {
    assert forall k :: k in rows <==> k == rows[0] || k in rows[1..];
  }

  lemma {:induction false} DeleteLettersAll(t: Tables, rows: seq<Slot>, works: nat -> Fault, at: nat)
    requires forall i: nat :: works(i).Fine?
    ensures DeleteDeadLetters(t, rows, works, at) == (t.(deadByTime := t.deadByTime - Elems(rows), deadById := t.deadById - Ids(rows)), |rows|)
    decreases |rows|
  {
    if rows == [] {
      assert t.deadByTime - Elems(rows) == t.deadByTime && t.deadById - Ids(rows) == t.deadById;
    } else {
      var t1 := DeleteDeadLetter(t, rows[0]);
      DeleteLettersAll(t1, rows[1..], works, at + 1);
      assert rows == [rows[0]] + rows[1..];
      ElemsOfCons(rows[0], rows[1..]);
      IdsCons(rows);
      assert t1.deadByTime - Elems(rows[1..]) == t.deadByTime - Elems(rows);
      assert t1.deadById - Ids(rows[1..]) == t.deadById - Ids(rows);
    }
  }

  lemma IdsCons(rows: seq<Slot>)
    requires rows != []
    ensures Ids(rows) == {rows[0].id} + Ids(rows[1..])
  {
    assert forall k :: k in rows <==> k == rows[0] || k in rows[1..];
  }

  /** A pass whose batches succeed removes exactly the oldest min(limit, expired) index rows and
      the keys they name, nothing else, and returns that count. */
  lemma KeyPassExact(t: Tables, cutoff: Time, limit: int, works: nat -> Fault)
    requires forall i: nat :: works(i).Fine?
    ensures var rows := CreatedRows(t);
            var n := Min(if limit <= 0 then 200 else limit, |Older(rows, CreatedTime, cutoff)|);
            var (t', count) := DeleteKeys(t, ExpiredKeys(t, cutoff, limit), works, 0);
            && count == n
            && CreatedRows(t') == rows[n..]
            && t' == t.(keys := t.keys - Names(rows[..n]), byCreated := t'.byCreated)
  {
    var rows := CreatedRows(t);
    var n := Min(CleanLimit(limit), |Older(rows, CreatedTime, cutoff)|);
    CreatedListed(t);
    PassCollects(rows, CreatedTime, cutoff, CleanLimit(limit));
    DeleteKeysAll(t, ExpiredKeys(t, cutoff, limit), works, 0);
    CreatedDrop(t, DeleteKeys(t, ExpiredKeys(t, cutoff, limit), works, 0).0, n);
  }

  /** The same for dead letters: the oldest min(limit, expired) letters leave the by-time view, and
      the by-id view loses the letters of those events. */
  lemma LetterPassExact(t: Tables, cutoff: Time, limit: int, works: nat -> Fault)
    requires forall i: nat :: works(i).Fine?
    ensures var rows := DeadRows(t);
            var n := Min(if limit <= 0 then 200 else limit, |Older(rows, SlotTime, cutoff)|);
            var (t', count) := DeleteDeadLetters(t, ExpiredLetters(t, cutoff, limit), works, 0);
            && count == n
            && DeadRows(t') == rows[n..]
            && t' == t.(deadById := t.deadById - Ids(rows[..n]), deadByTime := t'.deadByTime)
  {
    var rows := DeadRows(t);
    var n := Min(CleanLimit(limit), |Older(rows, SlotTime, cutoff)|);
    DeadListed(t);
    PassCollects(rows, SlotTime, cutoff, CleanLimit(limit));
    DeleteLettersAll(t, ExpiredLetters(t, cutoff, limit), works, 0);
    DeadDrop(t, DeleteDeadLetters(t, ExpiredLetters(t, cutoff, limit), works, 0).0, n);
  }

  // ---------- repeated passes ----------

  function KeyPasses(t: Tables, cutoffs: seq<Time>, limit: int, works: nat -> Fault): Tables
    decreases |cutoffs|
  {
    if cutoffs == [] then t
    else KeyPasses(DeleteKeys(t, ExpiredKeys(t, cutoffs[0], limit), works, 0).0, cutoffs[1..], limit, works)
  }

  /** Rows expired at one cutoff are among the first rows expired at a later one. */
  lemma {:induction false} OlderCount<K(!new)>(rows: seq<K>, time: K -> Time, cutoff: Time, later: Time)
    requires cutoff <= later && TimeSorted(rows, time)
    ensures |Older(rows, time, cutoff)| <= |Older(rows, time, later)|
    decreases |rows|
  {
    if rows != [] { OlderCount(rows[1..], time, cutoff, later); }
  }

  lemma SuffixOfRest<K>(rows: seq<K>, n: nat)
    requires 1 <= n <= |rows|
    ensures rows[n..] == rows[1..][n - 1..]
  {
  }

  lemma {:induction false} OlderOfSuffix<K(!new)>(rows: seq<K>, time: K -> Time, cutoff: Time, n: nat)
    requires TimeSorted(rows, time) && n <= |rows|
    ensures |Older(rows[n..], time, cutoff)| == Beyond(|Older(rows, time, cutoff)|, n)
    decreases n
  {
    if n == 0 {
      assert rows[n..] == rows;
    } else {
      OlderOfTail(rows, time, cutoff);
      SortedRest(rows, time);
      OlderOfSuffix(rows[1..], time, cutoff, n - 1);
      SuffixOfRest(rows, n);
      BeyondMore(|Older(rows, time, cutoff)|, 1, n - 1, n);
    }
  }

  function Beyond(k: nat, n: nat): nat {
    if n <= k then k - n else 0
  }

  lemma OlderOfTail<K(!new)>(rows: seq<K>, time: K -> Time, cutoff: Time)
    requires TimeSorted(rows, time) && rows != []
    ensures |Older(rows[1..], time, cutoff)| == Beyond(|Older(rows, time, cutoff)|, 1)
  {
    if time(rows[0]) >= cutoff {
      NoneOlder(rows[1..], time, cutoff);
    }
  }

  /** One pass with a cutoff no earlier than the given one takes up to `limit` rows expired by it. */
  lemma PassShrinks(t: Tables, cutoff: Time, c: Time, limit: int, works: nat -> Fault)
    requires cutoff <= c && forall i: nat :: works(i).Fine?
    ensures var t' := DeleteKeys(t, ExpiredKeys(t, c, limit), works, 0).0;
            RowsLeft(t', cutoff) == Beyond(RowsLeft(t, cutoff), CleanLimit(limit))
  {
    KeyPassExact(t, c, limit, works);
    CreatedListed(t);
    SuffixLeft(CreatedRows(t), cutoff, c, CleanLimit(limit));
  }

  lemma SuffixLeft(rows: seq<CreatedKey>, cutoff: Time, c: Time, room: nat)
    requires cutoff <= c && TimeSorted(rows, CreatedTime)
    ensures var n := Min(room, |Older(rows, CreatedTime, c)|);
            |Older(rows[n..], CreatedTime, cutoff)| == Beyond(|Older(rows, CreatedTime, cutoff)|, room)
  {
    OlderCount(rows, CreatedTime, cutoff, c);
    OlderOfSuffix(rows, CreatedTime, cutoff, Min(room, |Older(rows, CreatedTime, c)|));
  }

  /** How many rows expired by a cutoff are left. */
  function RowsLeft(t: Tables, cutoff: Time): nat {
    |Older(CreatedRows(t), CreatedTime, cutoff)|
  }

  lemma BeyondMore(k: nat, a: nat, b: nat, sum: nat)
    requires sum == a + b
    ensures Beyond(Beyond(k, a), b) == Beyond(k, sum)
  {
  }

  /** The room of m passes: m times the limit. */
  function Capacity(limit: int, m: nat): nat {
    if m == 0 then 0 else CleanLimit(limit) + Capacity(limit, m - 1)
  }

  lemma {:induction false} CapacityIs(limit: int, m: nat)
    ensures Capacity(limit, m) == m * CleanLimit(limit)
  {
    if m > 0 {
      CapacityIs(limit, m - 1);
      assert m * CleanLimit(limit) == (m - 1) * CleanLimit(limit) + CleanLimit(limit);
    }
  }

  lemma {:induction false} PassesShrink(t: Tables, cutoff: Time, cutoffs: seq<Time>, limit: int, works: nat -> Fault)
    requires forall i: nat :: works(i).Fine?
    requires forall i :: 0 <= i < |cutoffs| ==> cutoff <= cutoffs[i]
    ensures RowsLeft(KeyPasses(t, cutoffs, limit, works), cutoff) == Beyond(RowsLeft(t, cutoff), Capacity(limit, |cutoffs|))
    decreases |cutoffs|
  {
    if cutoffs != [] {
      var t1, rest := DeleteKeys(t, ExpiredKeys(t, cutoffs[0], limit), works, 0).0, cutoffs[1..];
      PassShrinks(t, cutoff, cutoffs[0], limit, works);
      PassesShrink(t1, cutoff, rest, limit, works);
      BeyondMore(RowsLeft(t, cutoff), CleanLimit(limit), Capacity(limit, |rest|), Capacity(limit, |cutoffs|));
    }
  }

  /** Enough passes, each with a cutoff no earlier than a given one, remove every key row expired by it. */
  lemma PassesDrain(t: Tables, cutoff: Time, cutoffs: seq<Time>, limit: int, works: nat -> Fault)
    requires forall i: nat :: works(i).Fine?
    requires forall i :: 0 <= i < |cutoffs| ==> cutoff <= cutoffs[i]
    ensures RowsLeft(KeyPasses(t, cutoffs, limit, works), cutoff) == Beyond(RowsLeft(t, cutoff), |cutoffs| * CleanLimit(limit))
  {
    CapacityIs(limit, |cutoffs|);
    PassesShrink(t, cutoff, cutoffs, limit, works);
  }

  /** As many passes as expired rows over limit, rounded up, leave no key row older than the cutoff. */
  lemma PassesDrainAll(t: Tables, cutoff: Time, cutoffs: seq<Time>, limit: int, works: nat -> Fault)
    requires forall i: nat :: works(i).Fine?
    requires forall i :: 0 <= i < |cutoffs| ==> cutoff <= cutoffs[i]
    requires |cutoffs| * CleanLimit(limit) >= RowsLeft(t, cutoff)
    ensures forall k :: k in KeyPasses(t, cutoffs, limit, works).byCreated ==> k.createdAt >= cutoff
  {
    PassesDrain(t, cutoff, cutoffs, limit, works);
    var t' := KeyPasses(t, cutoffs, limit, works);
    assert Older(CreatedRows(t'), CreatedTime, cutoff) == [];
    forall k | k in t'.byCreated ensures k.createdAt >= cutoff {
      assert k in CreatedRows(t');
    }
  }

  /** From t to t' exactly the keys named by removed index rows went, and only rows older than a cutoff. */
  ghost predicate Purged(t: Tables, t': Tables, cutoff: Time) {
    && (forall k :: k in t'.byCreated ==> k in t.byCreated)
    && (forall k :: k in t.byCreated && k !in t'.byCreated ==> k.createdAt < cutoff && k.key !in t'.keys)
    && (forall key :: key in t'.keys ==> key in t.keys)
    && (forall key :: key in t.keys && key !in t'.keys ==> exists k :: k in t.byCreated && k !in t'.byCreated && k.key == key)
  }

  lemma PassPurges(t: Tables, cutoff: Time, limit: int, works: nat -> Fault)
    requires forall i: nat :: works(i).Fine?
    ensures Purged(t, DeleteKeys(t, ExpiredKeys(t, cutoff, limit), works, 0).0, cutoff)
  {
    var rows := ExpiredKeys(t, cutoff, limit);
    ExpiredKeysListed(t, cutoff, limit);
    DeleteKeysAll(t, rows, works, 0);
  }

  lemma PurgedTrans(t: Tables, t1: Tables, t2: Tables, cutoff: Time)
    requires Purged(t, t1, cutoff) && Purged(t1, t2, cutoff)
    ensures Purged(t, t2, cutoff)
  {
    forall key | key in t.keys && key !in t2.keys ensures exists k :: k in t.byCreated && k !in t2.byCreated && k.key == key {
      if key in t1.keys {
        var k :| k in t1.byCreated && k !in t2.byCreated && k.key == key;
      } else {
        var k :| k in t.byCreated && k !in t1.byCreated && k.key == key;
      }
    }
  }

  lemma {:induction false} PassesPurge(t: Tables, last: Time, cutoffs: seq<Time>, limit: int, works: nat -> Fault)
    requires (forall i: nat :: works(i).Fine?) && forall i :: 0 <= i < |cutoffs| ==> cutoffs[i] <= last
    ensures Purged(t, KeyPasses(t, cutoffs, limit, works), last)
    decreases |cutoffs|
  {
    if cutoffs != [] {
      PassPurges(t, cutoffs[0], limit, works);
      var t1 := DeleteKeys(t, ExpiredKeys(t, cutoffs[0], limit), works, 0).0;
      PassesPurge(t1, last, cutoffs[1..], limit, works);
      PurgedTrans(t, t1, KeyPasses(t1, cutoffs[1..], limit, works), last);
    }
  }

  /** Some index row older than the cutoff names the key. */
  ghost predicate NamedBefore(t: Tables, key: Key, cutoff: Time) {
    exists k :: k in t.byCreated && k.key == key && k.createdAt < cutoff
  }

  /** Enough passes with cutoffs from `cutoff` to `last` remove every key that an index row older than
      `cutoff` names, and no key that no row older than `last` names. */
  lemma KeysDrain(t: Tables, cutoff: Time, last: Time, cutoffs: seq<Time>, limit: int, works: nat -> Fault, key: Key)
    requires (forall i: nat :: works(i).Fine?) && forall i :: 0 <= i < |cutoffs| ==> cutoff <= cutoffs[i] <= last
    requires |cutoffs| * CleanLimit(limit) >= RowsLeft(t, cutoff) && key in t.keys
    ensures NamedBefore(t, key, cutoff) ==> key !in KeyPasses(t, cutoffs, limit, works).keys
    ensures key !in KeyPasses(t, cutoffs, limit, works).keys ==> NamedBefore(t, key, last)
  {
    PassesPurge(t, last, cutoffs, limit, works);
    PassesDrainAll(t, cutoff, cutoffs, limit, works);
    var t' := KeyPasses(t, cutoffs, limit, works);
    if NamedBefore(t, key, cutoff) {
      var k :| k in t.byCreated && k.key == key && k.createdAt < cutoff;
      assert k !in t'.byCreated;
    }
  }

  /** After enough passes with one cutoff a key is gone if and only if an index row older than the
      cutoff named it; in particular a key without index row stays. */
  lemma KeysDrainExact(t: Tables, cutoff: Time, cutoffs: seq<Time>, limit: int, works: nat -> Fault, key: Key)
    requires (forall i: nat :: works(i).Fine?) && forall i :: 0 <= i < |cutoffs| ==> cutoffs[i] == cutoff
    requires |cutoffs| * CleanLimit(limit) >= RowsLeft(t, cutoff) && key in t.keys
    ensures key !in KeyPasses(t, cutoffs, limit, works).keys <==> NamedBefore(t, key, cutoff)
  {
    KeysDrain(t, cutoff, cutoff, cutoffs, limit, works, key);
  }
}
