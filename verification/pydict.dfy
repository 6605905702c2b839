/**
 * Python's dict as a value: a finite map whose keys remember the order in
 * which they were first inserted.  Assigning to a key that is already present
 * replaces its value and keeps its position; a new key goes to the end.
 */
module PyDict {

  datatype Dict<K(!new), V> = Dict(keys: seq<K>, items: map<K, V>) {

    /** The keys are listed once each, and exactly the mapped keys are listed. */
    ghost predicate Valid() {
      && Distinct(keys)
      && (forall k :: k in items <==> k in keys)
    }

    /** `d[k] = v` */
    function Put(k: K, v: V): (d: Dict<K, V>)
      requires Valid()
      ensures d.Valid()
      ensures d.items == items[k := v]
      ensures k in items ==> d.keys == keys
      ensures k !in items ==> d.keys == keys + [k]
    {
      Dict(if k in items then keys else keys + [k], items[k := v])
    }

    /** `d.get(k, default)`; a Counter reads a missing key as 0 this way. */
    function GetOr(k: K, default: V): V {
      if k in items then items[k] else default
    }
  }

  /** No element occurs twice. */
  ghost predicate Distinct<T>(s: seq<T>) {
    forall i, j :: 0 <= i < j < |s| ==> s[i] != s[j]
  }

  /** `{}` */
  function Empty<K(!new), V>(): (d: Dict<K, V>)
    ensures d.Valid() && d.keys == [] && d.items == map[]
  {
    Dict([], map[])
  }

  /** Assigning twice to one key is the same as assigning the second value. */
  lemma PutTwice<K(!new), V>(d: Dict<K, V>, k: K, v1: V, v2: V)
    requires d.Valid()
    ensures d.Put(k, v1).Put(k, v2) == d.Put(k, v2)
  {
  }

  /** A dict has as many keys listed as it maps: `len(d.keys()) == len(d)`. */
  lemma KeysCount<K(!new), V>(d: Dict<K, V>)
    requires d.Valid()
    ensures |d.items.Keys| == |d.keys|
  {
    DistinctCount(d.keys);
    assert d.items.Keys == set x | x in d.keys;
  }

  lemma {:induction false} DistinctCount<T>(s: seq<T>)
    requires Distinct(s)
    ensures |set x | x in s| == |s|
  {
    if s != [] {
      var n := |s| - 1;
      DistinctInit(s);
      DistinctCount(s[..n]);
      assert (set x | x in s) == (set x | x in s[..n]) + {s[n]} by {
        assert s == s[..n] + [s[n]];
      }
    }
  }

  /** Without its last element a sequence stays distinct, and that element is not in it. */
  lemma DistinctInit<T>(s: seq<T>)
    requires s != [] && Distinct(s)
    ensures Distinct(s[..|s| - 1]) && s[|s| - 1] !in s[..|s| - 1]
  {
    var n := |s| - 1;
    forall i, j | 0 <= i < j < n
      ensures s[..n][i] != s[..n][j]
    {
      assert s[i] != s[j];
    }
  }
}
