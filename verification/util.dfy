/** `UtilService.merge`: the right-biased union of two objects. */
module Util {
  import opened Optional
  import opened OrderedMaps

  /** Adding `x` to the dropped names changes nothing when `ks` never mentions `x`. */
  lemma {:induction false} WithoutExtra(ks: seq<string>, drop: set<string>, x: string)
    requires x !in ks
    ensures Without(ks, drop + {x}) == Without(ks, drop)
  {
    if |ks| > 0 {
      assert x !in ks[1..];
      WithoutExtra(ks[1..], drop, x);
    }
  }

  /** The source's values for the names `ks`. */
  function Pick<V>(src: Obj<V>, ks: seq<string>): map<string, V>
    requires forall k :: k in ks ==> k in src.values
  {
    map k | k in ks :: src.values[k]
  }

  /** Writing one name, then the rest, writes all of them. */
  lemma PickStep<V>(target: map<string, V>, src: Obj<V>, ks: seq<string>)
    requires |ks| > 0 && ks[0] !in ks[1..]
    requires forall k :: k in ks ==> k in src.values
    ensures target[ks[0] := src.values[ks[0]]] + Pick(src, ks[1..]) == target + Pick(src, ks)
  {
    var lhs := target[ks[0] := src.values[ks[0]]] + Pick(src, ks[1..]);
    var rhs := target + Pick(src, ks);
    assert forall x :: x in ks <==> x == ks[0] || x in ks[1..];
    assert lhs.Keys == rhs.Keys;
    forall x | x in lhs.Keys ensures lhs[x] == rhs[x] {
    }
  }

  /**
   * `for (var name in ...) target[name] = src[name]` over the names `ks`,
   * in order.
   */
  function AssignKeys<V>(target: Obj<V>, src: Obj<V>, ks: seq<string>): Obj<V>
    requires forall k :: k in ks ==> k in src.values
    decreases |ks|
  {
    if |ks| == 0 then target
    else
      assert forall x :: x in ks[1..] ==> x in ks;
      AssignKeys(Set(target, ks[0], src.values[ks[0]]), src, ks[1..])
  }

  /** The written names take the source's values. */
  lemma {:induction false} AssignKeysValues<V>(target: Obj<V>, src: Obj<V>, ks: seq<string>)
    requires Distinct(ks)
    requires forall k :: k in ks ==> k in src.values
    ensures AssignKeys(target, src, ks).values == target.values + Pick(src, ks)
    decreases |ks|
  {
    if |ks| == 0 {
      assert Pick(src, ks) == map[];
    } else {
      assert forall x :: x in ks[1..] ==> x in ks;
      assert Distinct(ks[1..]);
      AssignKeysValues(Set(target, ks[0], src.values[ks[0]]), src, ks[1..]);
      PickStep(target.values, src, ks);
    }
  }

  /**
   * The order of names the assignment loop produces, tracked on plain
   * sequences: a name the target lacks is appended and becomes present.
   */
  function AssignedOrder(keys: seq<string>, present: set<string>, ks: seq<string>): seq<string>
    decreases |ks|
  {
    if |ks| == 0 then keys
    else if ks[0] in present then AssignedOrder(keys, present, ks[1..])
    else AssignedOrder(keys + [ks[0]], present + {ks[0]}, ks[1..])
  }

  lemma {:induction false} AssignKeysKeys<V>(target: Obj<V>, src: Obj<V>, ks: seq<string>)
    requires forall k :: k in ks ==> k in src.values
    ensures AssignKeys(target, src, ks).keys == AssignedOrder(target.keys, target.values.Keys, ks)
    decreases |ks|
  {
    if |ks| > 0 {
      assert forall x :: x in ks[1..] ==> x in ks;
      var next := Set(target, ks[0], src.values[ks[0]]);
      AssignKeysKeys(next, src, ks[1..]);
      if ks[0] in target.values {
        assert next.keys == target.keys && next.values.Keys == target.values.Keys;
      } else {
        assert next.keys == target.keys + [ks[0]] && next.values.Keys == target.values.Keys + {ks[0]};
      }
    }
  }

  /** Without the names already present, in order. */
  lemma {:induction false} AssignedOrderWithout(keys: seq<string>, present: set<string>, ks: seq<string>)
    requires Distinct(ks)
    ensures AssignedOrder(keys, present, ks) == keys + Without(ks, present)
    decreases |ks|
  {
    if |ks| > 0 {
      var k := ks[0];
      assert Distinct(ks[1..]);
      if k in present {
        assert Without(ks, present) == Without(ks[1..], present);
        AssignedOrderWithout(keys, present, ks[1..]);
      } else {
        assert k !in ks[1..];
        assert Without(ks, present) == [k] + Without(ks[1..], present);
        AssignedOrderWithout(keys + [k], present + {k}, ks[1..]);
        WithoutExtra(ks[1..], present, k);
        assert keys + [k] + Without(ks[1..], present) == keys + ([k] + Without(ks[1..], present));
      }
    }
  }

  /** The names the target lacked are appended in the order they are written. */
  lemma AssignKeysOrder<V>(target: Obj<V>, src: Obj<V>, ks: seq<string>)
    requires Distinct(ks)
    requires forall k :: k in ks ==> k in src.values
    ensures AssignKeys(target, src, ks).keys == target.keys + Without(ks, target.values.Keys)
  {
    AssignKeysKeys(target, src, ks);
    AssignedOrderWithout(target.keys, target.values.Keys, ks);
  }

  /** Picking every name of an object gives back its dictionary. */
  lemma PickAll<V>(src: Obj<V>)
    ensures Pick(src, src.keys) == src.values
  {
  }

  /** Copying every property of an object into `{}` rebuilds the object. */
  lemma CopyLoop<V>(first: Obj<V>)
    ensures AssignKeys(Empty(), first, first.keys) == first
  {
    var copy := AssignKeys(Empty(), first, first.keys);
    var empty: Obj<V> := Empty();
    assert copy.values == first.values by {
      AssignKeysValues(empty, first, first.keys);
      PickAll(first);
      assert map[] + first.values == first.values;
    }
    assert copy.keys == first.keys by {
      AssignKeysOrder(empty, first, first.keys);
      assert empty.values.Keys == {};
      WithoutNothing(first.keys, {});
      assert [] + first.keys == first.keys;
    }
  }

  /** The two copying loops of merge, run one after the other. */
  lemma TwoLoops<V>(first: Obj<V>, second: Obj<V>)
    ensures var r := AssignKeys(AssignKeys(Empty(), first, first.keys), second, second.keys);
      && r.values == first.values + second.values
      && r.keys == first.keys + Without(second.keys, first.values.Keys)
  {
    CopyLoop(first);
    AssignKeysValues(first, second, second.keys);
    AssignKeysOrder(first, second, second.keys);
    PickAll(second);
  }

  /**
   * `UtilService.merge(a, b)`: a fresh object with every property of `a`,
   * then every property of `b` written over it. An absent operand counts as
   * `{}`.
   */
  function Merge<V>(a: Option<Obj<V>>, b: Option<Obj<V>>): (r: Obj<V>)
    ensures r.values == a.GetOr(Empty()).values + b.GetOr(Empty()).values
    ensures r.keys == a.GetOr(Empty()).keys + Without(b.GetOr(Empty()).keys, a.GetOr(Empty()).values.Keys)
  {
    var first, second := a.GetOr(Empty()), b.GetOr(Empty());
    TwoLoops(first, second);
    AssignKeys(AssignKeys(Empty(), first, first.keys), second, second.keys)
  }

  /** A property of the right operand always survives a merge (a corollary of `Merge`'s contract, for callers that reason per key). */
  lemma MergeKeepsRight<V>(a: Obj<V>, b: Obj<V>, k: string)
    requires k in b.values
    ensures Lookup(Merge(Some(a), Some(b)), k) == Some(b.values[k])
  {
  }

  /** A property of the left operand survives unless the right operand has the same name (a corollary of `Merge`'s contract). */
  lemma MergeKeepsLeft<V>(a: Obj<V>, b: Obj<V>, k: string)
    requires k in a.values && k !in b.values
    ensures Lookup(Merge(Some(a), Some(b)), k) == Some(a.values[k])
  {
  }
}
