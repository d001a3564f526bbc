/** Python dicts with string keys: insertion-ordered maps. */
module OrderedMaps {

  /** A dict: its keys in insertion order and what each key maps to. */
  datatype ODict<V> = ODict(keys: seq<string>, values: map<string, V>)

  /** The keys are listed once each, and exactly the mapped keys are listed. */
  ghost predicate Valid<V>(d: ODict<V>) {
    && (forall i, j :: 0 <= i < j < |d.keys| ==> d.keys[i] != d.keys[j])
    && (forall k :: k in d.values <==> k in d.keys)
  }

  /** {} */
  function Empty<V>(): (d: ODict<V>)
    ensures Valid(d) && d.keys == [] && d.values == map[]
  {
    ODict([], map[])
  }

  /** d[k] = v: a new key is listed last, a key already present keeps its
      place and gets the new value. */
  function Put<V>(d: ODict<V>, k: string, v: V): (r: ODict<V>)
    ensures Valid(d) ==> Valid(r)
    ensures r.values == d.values[k := v]
    ensures |r.keys| >= |d.keys| && r.keys[..|d.keys|] == d.keys
  {
    if k in d.values then ODict(d.keys, d.values[k := v])
    else ODict(d.keys + [k], d.values[k := v])
  }

  /** len(d) */
  function Size<V>(d: ODict<V>): nat {
    |d.keys|
  }

  /** Dropping the last key of a dict leaves a dict. */
  lemma DropLastValid<V>(d: ODict<V>)
    requires Valid(d) && d.keys != []
    ensures var n := |d.keys| - 1;
            && d.keys[n] !in d.keys[..n]
            && Valid(ODict(d.keys[..n], d.values - {d.keys[n]}))
  {
    var n := |d.keys| - 1;
    var last := d.keys[n];
    var init := d.keys[..n];
    assert forall i :: 0 <= i < n ==> init[i] == d.keys[i];
    forall k | k in init
      ensures k != last
    {
      var i :| 0 <= i < n && init[i] == k;
    }
    forall k | k in d.keys && k != last
      ensures k in init
    {
      var i :| 0 <= i < |d.keys| && d.keys[i] == k;
      assert i < n;
    }
  }

  /** A dict's length is the number of its keys. */
  lemma {:induction false} SizeIsCardinality<V>(d: ODict<V>)
    requires Valid(d)
    ensures Size(d) == |d.values|
    decreases |d.keys|
  {
    if d.keys == [] {
      assert d.values.Keys == {};
    } else {
      var n := |d.keys| - 1;
      var last := d.keys[n];
      var rest := ODict(d.keys[..n], d.values - {last});
      DropLastValid(d);
      SizeIsCardinality(rest);
      assert last in d.values;
      assert d.values.Keys == rest.values.Keys + {last};
      assert last !in rest.values.Keys;
    }
  }
}
