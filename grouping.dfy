/**
 * The insertion-ordered "dictionary of lists" that the source builds three
 * times with the idiom
 *     if key not in d: d[key] = []
 *     d[key].append(value)
 * (accounts by currency code, transactions by date, in both scripts).
 * A Python dict remembers the order in which its keys were first inserted,
 * so a bucket collection is the key order plus a map from key to list.
 */
module Grouping {
  import opened Common

  datatype Buckets<K, V> = Buckets(keys: seq<K>, groups: map<K, seq<V>>)

  /** The shape every dict built by the idiom has: each key once, in the
      map exactly when listed, and no list empty. */
  ghost predicate Valid<K, V>(b: Buckets<K, V>)
  {
    && Distinct(b.keys)
    && (forall k :: k in b.groups ==> k in b.keys)
    && (forall i :: 0 <= i < |b.keys| ==> b.keys[i] in b.groups)
    && (forall k :: k in b.groups ==> b.groups[k] != [])
  }

  /** One step of the idiom: open a bucket for a new key, then append. */
  function Insert<K(==), V>(b: Buckets<K, V>, k: K, v: V): Buckets<K, V>
  {
    if k in b.groups then Buckets(b.keys, b.groups[k := b.groups[k] + [v]])
    else Buckets(b.keys + [k], b.groups[k := [v]])
  }

  /** The dict the idiom builds from a sequence of (key, value) pairs. */
  function GroupPairs<K(==), V>(ps: seq<(K, V)>): Buckets<K, V>
  {
    if ps == [] then Buckets([], map[])
    else Insert(GroupPairs(ps[..|ps| - 1]), ps[|ps| - 1].0, ps[|ps| - 1].1)
  }

  /** One step of the idiom keeps the shape. */
  lemma InsertValid<K, V>(b: Buckets<K, V>, k: K, v: V)
    requires Valid(b)
    ensures Valid(Insert(b, k, v))
  {
    if k !in b.groups {
      assert k !in b.keys;
    }
  }

  /** Every dict the idiom builds has the shape. */
  lemma {:induction false} GroupPairsValid<K, V>(ps: seq<(K, V)>)
    ensures Valid(GroupPairs(ps))
  {
    if ps != [] {
      GroupPairsValid(ps[..|ps| - 1]);
      InsertValid(GroupPairs(ps[..|ps| - 1]), ps[|ps| - 1].0, ps[|ps| - 1].1);
    }
  }

  /** Grouping one more pair is one more step of the idiom. */
  lemma GroupPairsSnoc<K, V>(ps: seq<(K, V)>, p: (K, V))
    ensures GroupPairs(ps + [p]) == Insert(GroupPairs(ps), p.0, p.1)
  {
    assert (ps + [p])[..|ps|] == ps;
  }

  /** The two statements of the idiom, `if k not in d: d[k] = []` and then
      `d[k].append(v)`, perform one Insert. */
  lemma OpenThenAppend<K, V>(keys: seq<K>, groups: map<K, seq<V>>, k: K, v: V)
    ensures var b0 := if k in groups then Buckets(keys, groups) else Buckets(keys + [k], groups[k := []]);
      Buckets(b0.keys, b0.groups[k := b0.groups[k] + [v]]) == Insert(Buckets(keys, groups), k, v)
  {
    assert [] + [v] == [v];
  }

  /** The values paired with `k`, in input order: the independent
      description of the bucket of `k`. */
  function ValuesAt<K(==), V>(ps: seq<(K, V)>, k: K): seq<V>
  {
    if ps == [] then []
    else ValuesAt(ps[..|ps| - 1], k) + (if ps[|ps| - 1].0 == k then [ps[|ps| - 1].1] else [])
  }

  /** Number of values held in the buckets listed in `keys`. */
  function TotalSize<K(==), V>(keys: seq<K>, groups: map<K, seq<V>>): nat
  {
    if keys == [] then 0
    else
      var k := keys[|keys| - 1];
      TotalSize(keys[..|keys| - 1], groups) + (if k in groups then |groups[k]| else 0)
  }

  /** The buckets concatenated in key order (Python: iterating `d.items()`
      and then each list). */
  function Flatten<K(==), V>(keys: seq<K>, groups: map<K, seq<V>>): seq<V>
  {
    if keys == [] then []
    else
      var k := keys[|keys| - 1];
      Flatten(keys[..|keys| - 1], groups) + (if k in groups then groups[k] else [])
  }

  /** Flattening distributes over concatenation of key lists. */
  lemma {:induction false} FlattenAppend<K, V>(a: seq<K>, b: seq<K>, groups: map<K, seq<V>>)
    ensures Flatten(a + b, groups) == Flatten(a, groups) + Flatten(b, groups)
    decreases |b|
  {
    if b == [] {
      assert a + b == a;
    } else {
      var init, k := b[..|b| - 1], b[|b| - 1];
      var last := if k in groups then groups[k] else [];
      FlattenAppend(a, init, groups);
      assert (a + b)[..|a + b| - 1] == a + init;
      assert (a + b)[|a + b| - 1] == k;
      calc {
        Flatten(a + b, groups);
        Flatten(a + init, groups) + last;
        Flatten(a, groups) + Flatten(init, groups) + last;
        Flatten(a, groups) + (Flatten(init, groups) + last);
        Flatten(a, groups) + Flatten(b, groups);
      }
    }
  }

  /** Every listed key has its bucket. */
  lemma GroupPairsKeyed<K, V>(ps: seq<(K, V)>)
    ensures forall i :: 0 <= i < |GroupPairs(ps).keys| ==> GroupPairs(ps).keys[i] in GroupPairs(ps).groups
  {
    GroupPairsValid(ps);
  }

  /** Some pair carries `k`. */
  predicate Occurs<K(==), V>(ps: seq<(K, V)>, k: K)
  {
    exists i :: 0 <= i < |ps| && ps[i].0 == k
  }

  /** A key occurs in a longer input iff it occurs before or is the new one. */
  lemma OccursSnoc<K, V>(ps: seq<(K, V)>, k: K)
    requires ps != []
    ensures Occurs(ps, k) <==> Occurs(ps[..|ps| - 1], k) || ps[|ps| - 1].0 == k
  {
    var init := ps[..|ps| - 1];
    if Occurs(ps, k) && ps[|ps| - 1].0 != k {
      var i :| 0 <= i < |ps| && ps[i].0 == k;
      assert init[i] == ps[i];
    }
    if Occurs(init, k) {
      var i :| 0 <= i < |init| && init[i].0 == k;
      assert ps[i] == init[i];
    }
  }

  /** Grouping partitions its input: the keys are exactly the keys of the
      pairs, each once; the bucket of a key holds exactly the values paired
      with it, in input order. (Their order is `GroupPairsKeyOrder`.) */
  lemma GroupPairsCorrect<K, V>(ps: seq<(K, V)>)
    ensures Valid(GroupPairs(ps))
    ensures forall k :: k in GroupPairs(ps).groups <==> Occurs(ps, k)
    ensures forall k :: k in GroupPairs(ps).groups ==> GroupPairs(ps).groups[k] == ValuesAt(ps, k)
  {
    GroupPairsValid(ps);
    GroupPairsDomain(ps);
    GroupPairsBuckets(ps);
  }

  /** A key has a bucket iff some pair carries it. */
  lemma {:induction false} GroupPairsDomain<K, V>(ps: seq<(K, V)>)
    ensures forall k :: k in GroupPairs(ps).groups <==> Occurs(ps, k)
  {
    if ps != [] {
      GroupPairsDomain(ps[..|ps| - 1]);
      forall x ensures x in GroupPairs(ps).groups <==> Occurs(ps, x) {
        OccursSnoc(ps, x);
      }
    }
  }

  /** The bucket of a key is the values paired with it, in input order. */
  lemma {:induction false} GroupPairsBuckets<K, V>(ps: seq<(K, V)>)
    ensures forall k :: k in GroupPairs(ps).groups ==> GroupPairs(ps).groups[k] == ValuesAt(ps, k)
  {
    if ps != [] {
      var init := ps[..|ps| - 1];
      var (k, v) := ps[|ps| - 1];
      GroupPairsBuckets(init);
      if k !in GroupPairs(init).groups {
        GroupPairsDomain(init);
        ValuesAtAbsent(init, k);
      }
    }
  }

  /** The position of the first pair that carries `k`. */
  function FirstIndex<K(==), V>(ps: seq<(K, V)>, k: K): (r: nat)
    requires Occurs(ps, k)
    ensures r < |ps| && ps[r].0 == k
    ensures forall i :: 0 <= i < r ==> ps[i].0 != k
  {
    var init := ps[..|ps| - 1];
    if Occurs(init, k) then
      var r := FirstIndex(init, k);
      assert ps[r] == init[r];
      r
    else |ps| - 1
  }

  /** The dict lists its keys in the order of their first occurrence in the
      input, which is the order of every later loop over its items. */
  lemma {:induction false} GroupPairsKeyOrder<K, V>(ps: seq<(K, V)>)
    ensures forall i :: 0 <= i < |GroupPairs(ps).keys| ==> Occurs(ps, GroupPairs(ps).keys[i])
    ensures forall i, j :: 0 <= i < j < |GroupPairs(ps).keys| ==>
      FirstIndex(ps, GroupPairs(ps).keys[i]) < FirstIndex(ps, GroupPairs(ps).keys[j])
  {
    if ps != [] {
      var init := ps[..|ps| - 1];
      var (k, v) := ps[|ps| - 1];
      GroupPairsKeyOrder(init);
      GroupPairsCorrect(init);
      var b := GroupPairs(init);
      var keys := GroupPairs(ps).keys;
      forall i | 0 <= i < |b.keys|
        ensures Occurs(ps, b.keys[i]) && FirstIndex(ps, b.keys[i]) == FirstIndex(init, b.keys[i])
      {
        var a := FirstIndex(init, b.keys[i]);
        assert ps[a] == init[a];
      }
      if k !in b.groups {
        assert !Occurs(init, k);
        assert keys == b.keys + [k];
        assert Occurs(ps, k) by {
          assert ps[|ps| - 1].0 == k;
        }
        assert FirstIndex(ps, k) == |ps| - 1;
      }
    }
  }

  /** A key that no pair carries has an empty list of values. */
  lemma {:induction false} ValuesAtAbsent<K, V>(ps: seq<(K, V)>, k: K)
    requires !Occurs(ps, k)
    ensures ValuesAt(ps, k) == []
  {
    if ps != [] {
      OccursSnoc(ps, k);
      ValuesAtAbsent(ps[..|ps| - 1], k);
    }
  }

  /** A value added to an existing bucket grows the total by one. */
  lemma {:induction false} TotalSizeAppend<K, V>(keys: seq<K>, groups: map<K, seq<V>>, k: K, v: V)
    requires Distinct(keys) && k in keys && k in groups
    ensures TotalSize(keys, groups[k := groups[k] + [v]]) == TotalSize(keys, groups) + 1
  {
    var last := keys[|keys| - 1];
    var init := keys[..|keys| - 1];
    if last == k {
      assert k !in init;
      TotalSizeFrame(init, groups, k, groups[k] + [v]);
    } else {
      TotalSizeAppend(init, groups, k, v);
    }
  }

  /** Changing a bucket outside `keys` does not change their total. */
  lemma {:induction false} TotalSizeFrame<K, V>(keys: seq<K>, groups: map<K, seq<V>>, k: K, vs: seq<V>)
    requires k !in keys
    ensures TotalSize(keys, groups[k := vs]) == TotalSize(keys, groups)
  {
    if keys != [] {
      TotalSizeFrame(keys[..|keys| - 1], groups, k, vs);
    }
  }

  /** Grouping neither loses nor duplicates a value: the buckets hold as
      many values as there were pairs. */
  lemma {:induction false} GroupPairsSize<K, V>(ps: seq<(K, V)>)
    ensures TotalSize(GroupPairs(ps).keys, GroupPairs(ps).groups) == |ps|
  {
    if ps != [] {
      var init := ps[..|ps| - 1];
      var (k, v) := ps[|ps| - 1];
      GroupPairsSize(init);
      GroupPairsCorrect(init);
      var b := GroupPairs(init);
      if k in b.groups {
        TotalSizeAppend(b.keys, b.groups, k, v);
      } else {
        assert k !in b.keys;
        TotalSizeFrame(b.keys, b.groups, k, [v]);
        assert (b.keys + [k])[..|b.keys|] == b.keys;
      }
    }
  }
}
