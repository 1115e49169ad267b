/**
 * JavaScript objects used as dictionaries: the property names in
 * enumeration order together with the name-to-value dictionary. Assigning
 * a new name appends it to the order; assigning an existing name replaces
 * its value and keeps its place; deleting a name removes it from both.
 */
module OrderedMaps {
  import opened Optional

  predicate Distinct(ks: seq<string>)
  {
    forall i, j :: 0 <= i < j < |ks| ==> ks[i] != ks[j]
  }

  datatype OMap<V> = OMap(keys: seq<string>, values: map<string, V>) {
    /** Every name occurs once in the order, and the order lists exactly the dictionary's names. */
    predicate Valid()
    {
      && Distinct(keys)
      && (forall k :: k in values ==> k in keys)
      && (forall k :: k in keys ==> k in values)
    }
  }

  /** A JavaScript object: names are unique and enumerated in insertion order. */
  type Obj<V> = m: OMap<V> | m.Valid() witness OMap([], map[])

  function Empty<V>(): Obj<V>
  {
    OMap([], map[])
  }

  /** Property read `m[k]`, `None` when the property is absent. */
  function Lookup<V>(m: Obj<V>, k: string): Option<V>
  {
    if k in m.values then Some(m.values[k]) else None
  }

  /** Property write `m[k] = v`. */
  function Set<V>(m: Obj<V>, k: string, v: V): (r: Obj<V>)
    ensures r.values == m.values[k := v]
    ensures r.keys == if k in m.values then m.keys else m.keys + [k]
  {
    if k in m.values then OMap(m.keys, m.values[k := v])
    else OMap(m.keys + [k], m.values[k := v])
  }

  /** `ks` with the names in `drop` taken out, order kept. */
  function Without(ks: seq<string>, drop: set<string>): (r: seq<string>)
    ensures forall x :: x in r <==> x in ks && x !in drop
    ensures Distinct(ks) ==> Distinct(r)
    ensures |r| <= |ks|
  {
    if |ks| == 0 then []
    else
      var rest := Without(ks[1..], drop);
      assert forall x :: x in ks[1..] ==> x in ks;
      if ks[0] in drop then rest
      else
        assert Distinct(ks) ==> ks[0] !in ks[1..];
        [ks[0]] + rest
  }

  /** The names of `ks` not in `drop` are all of `ks` when `drop` avoids them. */
  lemma {:induction false} WithoutNothing(ks: seq<string>, drop: set<string>)
    requires forall x :: x in ks ==> x !in drop
    ensures Without(ks, drop) == ks
  {
    if |ks| > 0 {
      assert forall x :: x in ks[1..] ==> x in ks;
      WithoutNothing(ks[1..], drop);
    }
  }

  /** `delete m[k]`. */
  function Remove<V>(m: Obj<V>, k: string): (r: Obj<V>)
    ensures r.values == m.values - {k}
    ensures r.keys == Without(m.keys, {k})
  {
    OMap(Without(m.keys, {k}), m.values - {k})
  }
}
