/**
 * The scalar values that travel through the adapter's property mappings,
 * with JavaScript's truthiness and string conversion.
 */
module JsValues {
  import opened Text
  import opened OrderedMaps

  /**
   * A scalar property value. Numbers are integers here (identifiers,
   * limits and counts are the only numbers the adapter inspects); a date
   * carries its millisecond timestamp.
   */
  datatype Value = Undefined | Null | Bool(b: bool) | Num(n: int) | Str(s: string) | Date(ms: int)

  /** A property mapping (a record's fields, a filter, a parameter set). */
  type PropMap = Obj<Value>

  /** JavaScript truthiness: what `if (v)`, `v ? a : b` and `v || d` test. */
  predicate Truthy(v: Value)
  {
    match v
    case Undefined => false
    case Null => false
    case Bool(b) => b
    case Num(n) => n != 0
    case Str(s) => s != ""
    case Date(_) => true
  }

  /** `typeof v == 'undefined' || v == null`. */
  predicate IsNullish(v: Value)
  {
    v.Undefined? || v.Null?
  }

  /** `a || b`: the first operand when truthy, the second otherwise. */
  function Or(a: Value, b: Value): (r: Value)
    ensures Truthy(a) ==> r == a
    ensures !Truthy(a) ==> r == b
  {
    if Truthy(a) then a else b
  }

  /** `m[k]` as JavaScript reads it: `undefined` when the property is absent. */
  function Get(m: PropMap, k: string): (v: Value)
    ensures k !in m.values ==> v == Undefined
  {
    if k in m.values then m.values[k] else Undefined
  }

  /** `'' + v`, the text string concatenation produces. */
  function ToText(v: Value): string
  {
    match v
    case Undefined => "undefined"
    case Null => "null"
    case Bool(b) => if b then "true" else "false"
    case Num(n) => IntText(n)
    case Str(s) => s
    case Date(ms) => IntText(ms)
  }

  /** The text of a truthy value is never empty, so a truthy clause always shows up. */
  lemma TruthyTextNonEmpty(v: Value)
    requires Truthy(v)
    ensures ToText(v) != ""
  {
  }
}
