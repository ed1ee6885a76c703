/** Clustering order: the rows of a partition come back in the order of their keys. */
module Ordering {
  import opened Schema

  ghost predicate StrictTotal<K(!new)>(less: (K, K) -> bool) {
    && (forall a :: !less(a, a))
    && (forall a, b, c :: less(a, b) && less(b, c) ==> less(a, c))
    && (forall a, b :: a != b ==> less(a, b) || less(b, a))
  }

  ghost predicate IsLeast<K>(m: K, keys: set<K>, less: (K, K) -> bool) {
    m in keys && forall k :: k in keys ==> k == m || less(m, k)
  }

  lemma {:induction false} LeastExists<K(!new)>(keys: set<K>, less: (K, K) -> bool)
    requires keys != {} && StrictTotal(less)
    ensures exists m :: IsLeast(m, keys, less)
    decreases |keys|
  {
    var x :| x in keys;
    var rest := keys - {x};
    if rest == {} {
      assert keys == {x};
      assert IsLeast(x, keys, less);
    } else {
      LeastExists(rest, less);
      var y :| IsLeast(y, rest, less);
      assert keys == rest + {x};
      if less(x, y) {
        assert IsLeast(x, keys, less);
      } else {
        assert IsLeast(y, keys, less);
      }
    }
  }

  function Least<K(!new, ==)>(keys: set<K>, less: (K, K) -> bool): (m: K)
    requires keys != {} && StrictTotal(less)
    ensures IsLeast(m, keys, less)
  {
    LeastExists(keys, less);
    assert forall a, b :: IsLeast(a, keys, less) && IsLeast(b, keys, less) ==> a == b;
    var m :| m in keys && forall k | k in keys :: k == m || less(m, k);
    m
  }

  /** All keys, in clustering order. */
  function Listing<K(!new, ==)>(keys: set<K>, less: (K, K) -> bool): (rows: seq<K>)
    requires StrictTotal(less)
    ensures |rows| == |keys|
    ensures forall k :: k in rows <==> k in keys
    decreases |keys|
  {
    if keys == {} then [] else
    var m := Least(keys, less);
    var rest := Listing(keys - {m}, less);
    assert forall k :: k in [m] + rest <==> k == m || k in rest;
    [m] + rest
  }

  lemma ListingUnfold<K(!new)>(keys: set<K>, less: (K, K) -> bool) returns (m: K)
    requires StrictTotal(less) && keys != {}
    ensures IsLeast(m, keys, less)
    ensures Listing(keys, less) == [m] + Listing(keys - {m}, less)
  {
    m := Least(keys, less);
  }

  lemma {:induction false} ListingSorted<K(!new)>(keys: set<K>, less: (K, K) -> bool, i: nat, j: nat)
    requires StrictTotal(less) && i < j < |keys|
    ensures less(Listing(keys, less)[i], Listing(keys, less)[j])
    decreases |keys|
  {
    var m := ListingUnfold(keys, less);
    var rest := Listing(keys - {m}, less);
    if i == 0 {
      assert rest[j - 1] in rest;
    } else {
      ListingSorted(keys - {m}, less, i - 1, j - 1);
    }
  }

  function Elems<K(==)>(rows: seq<K>): set<K> {
    set k | k in rows
  }

  lemma ElemsOfCons<K>(m: K, rest: seq<K>)
    ensures Elems([m] + rest) == {m} + Elems(rest)
  {
    assert forall k :: k in [m] + rest <==> k == m || k in rest;
  }

  /** Removing the first n keys of a partition leaves the rest of its listing. */
  lemma {:induction false} ListingDrop<K(!new)>(keys: set<K>, less: (K, K) -> bool, n: nat)
    requires StrictTotal(less) && n <= |keys|
    ensures Listing(keys - Elems(Listing(keys, less)[..n]), less) == Listing(keys, less)[n..]
    decreases n
  {
    if n == 0 {
      assert keys - Elems(Listing(keys, less)[..n]) == keys;
    } else {
      var m := ListingUnfold(keys, less);
      ListingDrop(keys - {m}, less, n - 1);
      DropCons(keys, m, Listing(keys - {m}, less), n);
    }
  }

  lemma DropCons<K>(keys: set<K>, m: K, rest: seq<K>, n: nat)
    requires 0 < n <= |rest| + 1
    ensures keys - Elems(([m] + rest)[..n]) == (keys - {m}) - Elems(rest[..n - 1])
    ensures ([m] + rest)[n..] == rest[n - 1..]
  {
    assert ([m] + rest)[..n] == [m] + rest[..n - 1];
    ElemsOfCons(m, rest[..n - 1]);
  }

  /** Clustering order of (time, event id) keys. */
  predicate SlotLess(a: Slot, b: Slot) {
    a.at < b.at || (a.at == b.at && a.id < b.id)
  }

  lemma SlotOrder()
    ensures StrictTotal(SlotLess)
  {
    assert forall a: Slot, b: Slot :: a != b ==> a.at != b.at || a.id != b.id;
  }

  /** Text order, character by character, a proper prefix first. */
  predicate TextLess(a: string, b: string) {
    if b == [] then false
    else if a == [] then true
    else a[0] < b[0] || (a[0] == b[0] && TextLess(a[1..], b[1..]))
  }

  lemma {:induction false} TextIrreflexive(a: string)
    ensures !TextLess(a, a)
  {
    if a != [] { TextIrreflexive(a[1..]); }
  }

  lemma {:induction false} TextTransitive(a: string, b: string, c: string)
    requires TextLess(a, b) && TextLess(b, c)
    ensures TextLess(a, c)
  {
    if a != [] && a[0] == b[0] && b[0] == c[0] { TextTransitive(a[1..], b[1..], c[1..]); }
  }

  lemma {:induction false} TextConnected(a: string, b: string)
    requires a != b
    ensures TextLess(a, b) || TextLess(b, a)
  {
    if a != [] && b != [] && a[0] == b[0] {
      assert a == [a[0]] + a[1..] && b == [b[0]] + b[1..];
      TextConnected(a[1..], b[1..]);
    }
  }

  predicate KeyLess(a: Key, b: Key) {
    TextLess(a.stream, b.stream) || (a.stream == b.stream && TextLess(a.name, b.name))
  }

  /** Clustering order of `idempotency_by_created`. */
  predicate CreatedLess(a: CreatedKey, b: CreatedKey) {
    a.createdAt < b.createdAt || (a.createdAt == b.createdAt && KeyLess(a.key, b.key))
  }

  lemma KeyOrder()
    ensures StrictTotal(KeyLess)
  {
    forall a: Key ensures !KeyLess(a, a) {
      TextIrreflexive(a.stream);
      TextIrreflexive(a.name);
    }
    forall a: Key, b: Key, c: Key | KeyLess(a, b) && KeyLess(b, c) ensures KeyLess(a, c) {
      if TextLess(a.stream, b.stream) && TextLess(b.stream, c.stream) {
        TextTransitive(a.stream, b.stream, c.stream);
      } else if a.stream == b.stream == c.stream {
        TextTransitive(a.name, b.name, c.name);
      }
    }
    forall a: Key, b: Key | a != b ensures KeyLess(a, b) || KeyLess(b, a) {
      if a.stream != b.stream {
        TextConnected(a.stream, b.stream);
      } else {
        TextConnected(a.name, b.name);
      }
    }
  }

  lemma CreatedOrder()
    ensures StrictTotal(CreatedLess)
  {
    KeyOrder();
    assert forall a: CreatedKey, b: CreatedKey :: a != b ==> a.createdAt != b.createdAt || a.key != b.key;
  }
}
