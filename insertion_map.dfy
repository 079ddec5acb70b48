/**
 * A JavaScript `Map<string, V>`: a finite map that also remembers the order
 * in which its keys were first inserted, which is the order `values()` and
 * `entries()` enumerate. Setting an existing key keeps its place; deleting
 * a key removes it from the order.
 */
module InsertionMaps {
  import opened Wrappers
  import opened Sequences

  /** `ks` without `k`, the other keys keeping their order (`RemoveKeyOrder`). */
  function RemoveKey(ks: seq<string>, k: string): (r: seq<string>)
    requires Distinct(ks)
    ensures Distinct(r)
    ensures forall x :: x in r <==> x in ks && x != k
    ensures |r| == if k in ks then |ks| - 1 else |ks|
    decreases |ks|
  {
    if ks == [] then []
    else
      assert ks == [ks[0]] + ks[1..];
      if ks[0] == k then ks[1..]
      else
        var rest := RemoveKey(ks[1..], k);
        DistinctTail(ks);
        [ks[0]] + rest
  }

  /** Removing an absent key changes nothing; removing the key at `i` closes the gap it leaves. */
  lemma {:induction false} RemoveKeyOrder(ks: seq<string>, k: string)
    requires Distinct(ks)
    ensures k !in ks ==> RemoveKey(ks, k) == ks
    ensures forall i :: 0 <= i < |ks| && ks[i] == k ==> RemoveKey(ks, k) == ks[..i] + ks[i + 1..]
    decreases |ks|
  {
    if ks != [] {
      assert ks == [ks[0]] + ks[1..];
      DistinctTail(ks);
      RemoveKeyOrder(ks[1..], k);
      if ks[0] == k {
        assert ks[..0] + ks[1..] == ks[1..];
      } else {
        forall i | 0 <= i < |ks| && ks[i] == k ensures RemoveKey(ks, k) == ks[..i] + ks[i + 1..] {
          assert ks[1..][i - 1] == k;
          GapAfterHead(ks, RemoveKey(ks[1..], k), i);
        }
      }
    }
  }

  /** Closing a gap behind the head is closing it in the tail and putting the head back. */
  lemma GapAfterHead(ks: seq<string>, rest: seq<string>, i: int)
    requires 1 <= i < |ks|
    requires rest == ks[1..][..i - 1] + ks[1..][i..]
    ensures [ks[0]] + rest == ks[..i] + ks[i + 1..]
  {
    assert ks[..i] == [ks[0]] + ks[1..][..i - 1];
    assert ks[i + 1..] == ks[1..][i..];
  }

  /** The test "not one of `gone`", as a `filter` callback. */
  function NotIn(gone: set<string>): string -> bool {
    (x: string) => x !in gone
  }

  /**
   * Removing `k` from the keys left after dropping `gone` leaves the keys not in
   * `gone + {k}`, in their original order.
   */
  lemma {:induction false} RemoveFromFiltered(ks: seq<string>, gone: set<string>, k: string)
    requires Distinct(ks)
    ensures RemoveKey(Filter(ks, NotIn(gone)), k) == Filter(ks, NotIn(gone + {k}))
    decreases |ks|
  {
    if ks != [] {
      var h, t := ks[0], ks[1..];
      assert ks == [h] + t;
      DistinctTail(ks);
      RemoveFromFiltered(t, gone, k);
      var f := Filter(t, NotIn(gone));
      if h !in gone {
        assert Filter(ks, NotIn(gone)) == [h] + f;
        assert ([h] + f)[0] == h && ([h] + f)[1..] == f;
        if h == k {
          FilterCongruent(t, NotIn(gone), NotIn(gone + {k}));
        }
      }
    }
  }

  /** A sequence without repetitions has as many elements as the set of its elements. */
  lemma {:induction false} DistinctCardinality(ks: seq<string>)
    requires Distinct(ks)
    ensures |set k | k in ks| == |ks|
    decreases |ks|
  {
    if ks != [] {
      DistinctTail(ks);
      DistinctCardinality(ks[1..]);
      assert (set k | k in ks) == (set k | k in ks[1..]) + {ks[0]};
    }
  }

  datatype InsertionMap<V> = InsertionMap(keys: seq<string>, entries: map<string, V>) {

    /** The order lists every key of the map exactly once. */
    ghost predicate Valid() {
      Distinct(keys) && (forall k :: k in entries <==> k in keys)
    }

    /** `new Map()` */
    static function Empty(): (m: InsertionMap<V>)
      ensures m.Valid() && m.entries == map[] && m.Size() == 0
    {
      InsertionMap([], map[])
    }

    /** `map.size` */
    function Size(): nat {
      |keys|
    }

    /** `map.get(k)`: `None` stands for `undefined`. */
    function Get(k: string): (r: Option<V>)
      ensures r.Some? <==> k in entries
      ensures r.Some? ==> r.value == entries[k]
    {
      if k in entries then Some(entries[k]) else None
    }

    /** `map.set(k, v)` */
    function Set(k: string, v: V): (m: InsertionMap<V>)
      requires Valid()
      ensures m.Valid() && m.entries == entries[k := v]
      ensures k in entries ==> m.keys == keys
      ensures k !in entries ==> m.keys == keys + [k]
    {
      if k in entries then InsertionMap(keys, entries[k := v])
      else InsertionMap(keys + [k], entries[k := v])
    }

    /**
     * `map.delete(k)` (whose result, whether `k` was present, is `k in entries`): the
     * other keys keep their order.
     */
    function Delete(k: string): (m: InsertionMap<V>)
      requires Valid()
      ensures m.Valid() && m.entries == entries - {k}
      ensures m.Size() == if k in entries then Size() - 1 else Size()
      ensures k !in entries ==> m.keys == keys
      ensures forall i :: 0 <= i < |keys| && keys[i] == k ==> m.keys == keys[..i] + keys[i + 1..]
    {
      RemoveKeyOrder(keys, k);
      InsertionMap(RemoveKey(keys, k), entries - {k})
    }

    /** `Array.from(map.values())`: the values in key-insertion order. */
    function Values(): (vs: seq<V>)
      requires Valid()
      ensures |vs| == Size()
      ensures forall i :: 0 <= i < |vs| ==> vs[i] == entries[keys[i]]
    {
      seq(|keys|, i requires 0 <= i < |keys| => entries[keys[i]])
    }
  }

  /** `map.size` counts the entries: the order neither loses nor repeats a key. */
  lemma SizeIsCardinality<V>(m: InsertionMap<V>)
    requires m.Valid()
    ensures m.Size() == |m.entries|
  {
    DistinctCardinality(m.keys);
    assert m.entries.Keys == set k | k in m.keys;
  }

  /** Every value of the map is enumerated, and nothing else is. */
  lemma ValuesAreEntries<V>(m: InsertionMap<V>, v: V)
    requires m.Valid()
    ensures v in m.Values() <==> exists k :: k in m.entries && m.entries[k] == v
  {
    var vs := m.Values();
    if exists k :: k in m.entries && m.entries[k] == v {
      var k :| k in m.entries && m.entries[k] == v;
      var i :| 0 <= i < |m.keys| && m.keys[i] == k;
      assert vs[i] == v;
    }
  }
}
