/**
 * `normalize` (lib/adapter.js): drop the absent and null-valued properties
 * of a mapping, and turn a numeric-string `id` into a number.
 */
module Normalizer {
  import opened Optional
  import opened Text
  import opened OrderedMaps
  import opened JsValues

  /** `typeof v == 'string' && !isNaN(v)`. */
  predicate IsNumericString(v: Value)
  {
    v.Str? && ParseNumber(v.s).Some?
  }

  /** What the `id` line does to a value: a numeric string becomes `Number(v)`. */
  function CoerceIdValue(v: Value): (r: Value)
    ensures !IsNumericString(r)
    ensures IsNumericString(v) ==> r == Num(ParseNumber(v.s).value)
    ensures !IsNumericString(v) ==> r == v
    ensures IsNullish(r) <==> IsNullish(v)
  {
    if IsNumericString(v) then Num(ParseNumber(v.s).value) else v
  }

  /** The names holding `undefined` or `null`. */
  function NullishNames(obj: PropMap): set<string>
  {
    set k | k in obj.values && IsNullish(obj.values[k])
  }

  /** The deletion loop: `delete obj[p]` for every nullish property `p`. */
  function DropNullish(obj: PropMap): (r: PropMap)
    ensures forall k :: k in r.values <==> k in obj.values && !IsNullish(obj.values[k])
    ensures forall k :: k in r.values ==> r.values[k] == obj.values[k]
  {
    OMap(Without(obj.keys, NullishNames(obj)),
         map k | k in obj.values && !IsNullish(obj.values[k]) :: obj.values[k])
  }

  /** The `id` line: `if (typeof obj.id == 'string' && !isNaN(obj.id)) obj.id = Number(obj.id)`. */
  function CoerceId(m: PropMap): (r: PropMap)
    ensures r.keys == m.keys
    ensures r.values.Keys == m.values.Keys
    ensures forall k :: k in m.values && k != "id" ==> r.values[k] == m.values[k]
    ensures "id" in m.values ==> r.values["id"] == CoerceIdValue(m.values["id"])
  {
    if "id" in m.values && IsNumericString(m.values["id"]) then
      Set(m, "id", CoerceIdValue(m.values["id"]))
    else m
  }

  /**
   * `normalize(obj)`: no property holds `undefined` or `null` any more;
   * every other property keeps its place and its value, except that a
   * numeric-string `id` becomes its number.
   */
  function Normalize(obj: PropMap): (r: PropMap)
    ensures forall k :: k in r.values ==> !IsNullish(r.values[k])
    ensures forall k :: k in r.values <==> k in obj.values && !IsNullish(obj.values[k])
    ensures forall k :: k in r.values && k != "id" ==> r.values[k] == obj.values[k]
    ensures "id" in r.values ==> r.values["id"] == CoerceIdValue(obj.values["id"])
    ensures r.keys == Without(obj.keys, NullishNames(obj))
  {
    CoerceId(DropNullish(obj))
  }

  /** The shape `normalize` leaves a mapping in. */
  predicate Normalized(m: PropMap)
  {
    && (forall k :: k in m.values ==> !IsNullish(m.values[k]))
    && ("id" in m.values ==> !IsNumericString(m.values["id"]))
  }

  lemma NormalizeIsNormalized(obj: PropMap)
    ensures Normalized(Normalize(obj))
  {
  }

  /** A mapping already in normal form is left alone. */
  lemma NormalizeFixesNormalized(m: PropMap)
    requires Normalized(m)
    ensures Normalize(m) == m
  {
    assert NullishNames(m) == {};
    WithoutNothing(m.keys, {});
    assert DropNullish(m).values == m.values;
  }

  /** `normalize` is idempotent. */
  lemma NormalizeIdempotent(obj: PropMap)
    ensures Normalize(Normalize(obj)) == Normalize(obj)
  {
    NormalizeIsNormalized(obj);
    NormalizeFixesNormalized(Normalize(obj));
  }

  /** An `id` given as the decimal text of a number becomes that number. */
  lemma NormalizeNumericId(obj: PropMap, n: int)
    requires Lookup(obj, "id") == Some(Str(IntText(n)))
    ensures Lookup(Normalize(obj), "id") == Some(Num(n))
  {
    ParseIntText(n);
  }
}
