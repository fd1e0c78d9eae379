/**
 * A Python `dict` with natural-number keys, as the shopping cart uses it:
 * a mapping plus the order in which its keys were first inserted.
 * Assigning to a present key keeps its position; deleting a key drops it
 * from the order; values are listed in key order.
 */
module OrderedDict {

  datatype DictRep<V> = DictRep(keys: seq<nat>, items: map<nat, V>)

  /** Keys are listed once each, and exactly the mapped keys are listed. */
  ghost predicate WellFormed<V>(d: DictRep<V>) {
    Distinct(d.keys) && (forall k :: k in d.items <==> k in d.keys)
  }

  type Dict<V> = d: DictRep<V> | WellFormed(d) witness DictRep([], map[])

  /** `{}` */
  function Empty<V>(): (r: Dict<V>)
    ensures r.items == map[] && r.keys == []
  {
    DictRep([], map[])
  }

  ghost predicate Distinct(ks: seq<nat>) {
    forall i, j :: 0 <= i < j < |ks| ==> ks[i] != ks[j]
  }

  /** `ks` with the key `k` taken out, everything else in its order. */
  function Without(ks: seq<nat>, k: nat): (r: seq<nat>)
    ensures forall x :: x in r <==> x in ks && x != k
    ensures k !in ks ==> r == ks
  {
    if ks == [] then []
    else if ks[0] == k then Without(ks[1..], k)
    else [ks[0]] + Without(ks[1..], k)
  }

  /** In a list without repeats, `Without` cuts out the one occurrence of the key. */
  lemma WithoutCutsOne(ks: seq<nat>, k: nat)
    requires Distinct(ks)
    ensures Distinct(Without(ks, k))
    ensures k in ks ==> exists i :: 0 <= i < |ks| && ks[i] == k && Without(ks, k) == ks[..i] + ks[i + 1..]
  {
    if k in ks {
      var i :| 0 <= i < |ks| && ks[i] == k;
      assert forall j :: 0 <= j < |ks| && j != i ==> ks[j] != k;
      WithoutAt(ks, k, i);
      CutKeepsDistinct(ks, i);
    }
  }

  /** When `k` occurs only at position `i`, that occurrence is the one `Without` removes. */
  lemma {:induction false} WithoutAt(ks: seq<nat>, k: nat, i: nat)
    requires i < |ks| && ks[i] == k
    requires forall j :: 0 <= j < |ks| && j != i ==> ks[j] != k
    ensures Without(ks, k) == ks[..i] + ks[i + 1..]
  {
    if i == 0 {
      assert k !in ks[1..] by {
        forall j | 0 <= j < |ks[1..]| ensures ks[1..][j] != k {
          assert ks[1..][j] == ks[j + 1];
        }
      }
      assert ks[..0] + ks[1..] == ks[1..];
    } else {
      var rest := ks[1..];
      forall j | 0 <= j < |rest| && j != i - 1 ensures rest[j] != k {
        assert rest[j] == ks[j + 1];
      }
      WithoutAt(rest, k, i - 1);
      assert ks[0] != k;
      assert Without(ks, k) == [ks[0]] + Without(rest, k);
      assert rest[..i - 1] == ks[1..i] && rest[i..] == ks[i + 1..];
      assert ks[..i] == [ks[0]] + ks[1..i];
    }
  }

  /** Cutting one position out of a list without repeats leaves a list without repeats. */
  lemma CutKeepsDistinct(ks: seq<nat>, i: nat)
    requires Distinct(ks) && i < |ks|
    ensures Distinct(ks[..i] + ks[i + 1..])
  {
    var cut := ks[..i] + ks[i + 1..];
    forall a, b | 0 <= a < b < |cut| ensures cut[a] != cut[b] {
      var a' := if a < i then a else a + 1;
      var b' := if b < i then b else b + 1;
      assert cut[a] == ks[a'] && cut[b] == ks[b'];
    }
  }

  /** `d[k] = v` */
  function Put<V>(d: Dict<V>, k: nat, v: V): (r: Dict<V>)
    ensures k in r.items && r.items[k] == v
    ensures forall x :: x != k ==> (x in r.items <==> x in d.items) && (x in r.items ==> r.items[x] == d.items[x])
  {
    DictRep(if k in d.items then d.keys else d.keys + [k], d.items[k := v])
  }

  /** `del d[k]` when `k` is present; `d` itself when it is not. */
  function Delete<V>(d: Dict<V>, k: nat): (r: Dict<V>)
    ensures k !in r.items
    ensures forall x :: x != k ==> (x in r.items <==> x in d.items) && (x in r.items ==> r.items[x] == d.items[x])
  {
    WithoutCutsOne(d.keys, k);
    DictRep(Without(d.keys, k), d.items - {k})
  }

  /**
   * `list(d.values())`: one value per key, the value of each key in key
   * order; empty exactly when the dict is.
   */
  function Values<V>(d: Dict<V>): (r: seq<V>)
    ensures |r| == |d.keys| == |d.items|
    ensures forall i :: 0 <= i < |d.keys| ==> r[i] == d.items[d.keys[i]]
    ensures r == [] <==> d.items == map[]
  {
    DistinctSize(d.keys, d.items.Keys);
    seq(|d.keys|, i requires 0 <= i < |d.keys| => d.items[d.keys[i]])
  }

  // ---------------------------------------------------------------------
  // Properties
  // ---------------------------------------------------------------------

  /** Assigning a new key appends its value to the values. */
  lemma PutNew<V>(d: Dict<V>, k: nat, v: V)
    requires k !in d.items
    ensures Put(d, k, v).items == d.items[k := v]
    ensures Values(Put(d, k, v)) == Values(d) + [v]
  {
  }

  /** Assigning a present key replaces its value in place and keeps the order. */
  lemma PutPresent<V>(d: Dict<V>, k: nat, v: V)
    requires k in d.items
    ensures Put(d, k, v).keys == d.keys
    ensures |Values(Put(d, k, v))| == |Values(d)|
    ensures forall i :: 0 <= i < |d.keys| ==>
              Values(Put(d, k, v))[i] == if d.keys[i] == k then v else Values(d)[i]
  {
  }

  /** Assigning the same key and value twice is the same as once. */
  lemma PutIdempotent<V>(d: Dict<V>, k: nat, v: V)
    ensures Put(Put(d, k, v), k, v) == Put(d, k, v)
  {
  }

  /** After `d[k] = v` the key is listed exactly once. */
  lemma PutListsKeyOnce<V>(d: Dict<V>, k: nat, v: V)
    ensures k in Put(d, k, v).items && Put(d, k, v).items[k] == v
    ensures forall i, j :: 0 <= i < j < |Put(d, k, v).keys| ==>
              Put(d, k, v).keys[i] == k ==> Put(d, k, v).keys[j] != k
  {
  }

  /** Removing an absent key changes nothing. */
  lemma DeleteAbsent<V>(d: Dict<V>, k: nat)
    requires k !in d.items
    ensures Delete(d, k) == d
  {
    assert d.items - {k} == d.items;
  }

  /** Removing a present key drops exactly that entry and one listed key. */
  lemma DeletePresent<V>(d: Dict<V>, k: nat)
    requires k in d.items
    ensures k !in Delete(d, k).items
    ensures forall x :: x != k ==> (x in Delete(d, k).items <==> x in d.items)
    ensures forall x :: x in Delete(d, k).items ==> Delete(d, k).items[x] == d.items[x]
    ensures |Delete(d, k).keys| == |d.keys| - 1
  {
    WithoutCutsOne(d.keys, k);
  }

  /** Removing the key listed at position `i` keeps the other keys in their order. */
  lemma DeleteKeepsOrder<V>(d: Dict<V>, k: nat, i: nat)
    requires i < |d.keys| && d.keys[i] == k
    ensures Delete(d, k).keys == d.keys[..i] + d.keys[i + 1..]
  {
    var ks := d.keys;
    forall j | 0 <= j < |ks| && j != i ensures ks[j] != k {
      if j < i {
        assert ks[j] != ks[i];
      } else {
        assert ks[i] != ks[j];
      }
    }
    WithoutAt(ks, k, i);
  }

  /** A list without repeats is as long as the set of its elements. */
  lemma {:induction false} DistinctSize(ks: seq<nat>, s: set<nat>)
    requires Distinct(ks)
    requires forall k :: k in s <==> k in ks
    ensures |s| == |ks|
  {
    if ks != [] {
      var last := ks[|ks| - 1];
      var front := ks[..|ks| - 1];
      assert forall k :: k in s - {last} <==> k in front by {
        forall k ensures k in s - {last} <==> k in front {
          if k in front {
            var j :| 0 <= j < |front| && front[j] == k;
            assert ks[j] == k;
          }
          if k in ks && k != last {
            var j :| 0 <= j < |ks| && ks[j] == k;
            assert j < |ks| - 1 && front[j] == k;
          }
        }
      }
      DistinctSize(front, s - {last});
    }
  }
}
