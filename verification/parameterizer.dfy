/**
 * `parameterize` (lib/adapter.js): from one property mapping, the inline
 * node-pattern filter `{k:{pk},...}`, the SET list `alias.k={pk},...` and
 * the parameter bindings, where `pk` is the field name behind a prefix.
 * Values only ever travel in the bindings; the two texts mention nothing
 * but field names and placeholders.
 */
module Parameterizer {
  import opened Optional
  import opened Text
  import opened OrderedMaps
  import opened JsValues
  import opened Normalizer

  /** `{str, form, json}`: the pattern filter, the SET list and the bindings. */
  datatype Fragment = Fragment(str: string, form: string, json: PropMap)

  /** `options.alias || 'n'`. */
  function EffectiveAlias(alias: string): (a: string)
    ensures a != ""
    ensures alias != "" ==> a == alias
  {
    if alias == "" then "n" else alias
  }

  /** `key + ':{' + prefix + key + '}'`. */
  function PatternToken(key: string, prefix: string): string
  {
    key + ":{" + prefix + key + "}"
  }

  /** `alias + '.' + key + '={' + prefix + key + '}'`. */
  function FormToken(alias: string, key: string, prefix: string): string
  {
    alias + "." + key + "={" + prefix + key + "}"
  }

  function PatternTokens(keys: seq<string>, prefix: string): (ts: seq<string>)
    ensures |ts| == |keys|
    ensures forall i :: 0 <= i < |keys| ==> ts[i] == PatternToken(keys[i], prefix)
  {
    seq(|keys|, i requires 0 <= i < |keys| => PatternToken(keys[i], prefix))
  }

  function FormTokens(keys: seq<string>, prefix: string, alias: string): (ts: seq<string>)
    ensures |ts| == |keys|
    ensures forall i :: 0 <= i < |keys| ==> ts[i] == FormToken(alias, keys[i], prefix)
  {
    seq(|keys|, i requires 0 <= i < |keys| => FormToken(alias, keys[i], prefix))
  }

  /** The inline pattern: the tokens, comma-separated, in braces. */
  function PatternOf(keys: seq<string>, prefix: string): string
  {
    "{" + Join(PatternTokens(keys, prefix), ',') + "}"
  }

  /** The SET list: the tokens, comma-separated. */
  function FormOf(keys: seq<string>, prefix: string, alias: string): string
  {
    Join(FormTokens(keys, prefix, alias), ',')
  }

  /**
   * `JSON.parse(JSON.stringify(m), reviver)` with the reviver
   * `this[prefix + key] = value; return value`: for each name of the
   * original mapping, in order, the value the holder has under that name
   * at that moment is also written under `prefix + name`.
   */
  function ReviveKeys(holder: PropMap, ks: seq<string>, prefix: string): PropMap
    decreases |ks|
  {
    if |ks| == 0 then holder
    else ReviveKeys(Set(holder, prefix + ks[0], Get(holder, ks[0])), ks[1..], prefix)
  }

  function Revive(m: PropMap, prefix: string): PropMap
  {
    ReviveKeys(m, m.keys, prefix)
  }

  /**
   * `parameterize(obj, {prefix, alias})`. A falsy `obj` gives all-empty
   * outputs; any object, even `{}`, gives a braced pattern.
   */
  function Parameterize(obj: Option<PropMap>, prefix: string, alias: string): (f: Fragment)
    ensures obj.None? ==> f == Fragment("", "", Empty())
    ensures obj.Some? ==> |f.str| >= 2 && f.str[0] == '{' && f.str[|f.str| - 1] == '}'
    ensures obj.Some? && Normalize(obj.value).keys == [] ==> f.str == "{}" && f.form == "" && f.json.keys == []
  {
    if obj.None? then Fragment("", "", Empty())
    else
      var m := Normalize(obj.value);
      Fragment(PatternOf(m.keys, prefix), FormOf(m.keys, prefix, EffectiveAlias(alias)), Revive(m, prefix))
  }

  // ---------------------------------------------------------------------
  // The bindings

  function Prefixed(ks: seq<string>, prefix: string): (r: seq<string>)
    ensures |r| == |ks|
    ensures forall i :: 0 <= i < |ks| ==> r[i] == prefix + ks[i]
  {
    seq(|ks|, i requires 0 <= i < |ks| => prefix + ks[i])
  }

  /** No field name is the prefix followed by another field name. */
  predicate NoPrefixClash(m: PropMap, prefix: string)
  {
    forall k :: k in m.values ==> prefix + k !in m.values
  }

  lemma PrefixInjective(prefix: string, a: string, b: string)
    requires prefix + a == prefix + b
    ensures a == b
  {
    assert a == (prefix + a)[|prefix|..];
    assert b == (prefix + b)[|prefix|..];
  }

  /** With the empty prefix the reviver writes every value back onto itself. */
  lemma {:induction false} ReviveKeysEmptyPrefix(h: PropMap, ks: seq<string>)
    requires forall k :: k in ks ==> k in h.values
    ensures ReviveKeys(h, ks, "") == h
    decreases |ks|
  {
    if |ks| > 0 {
      assert "" + ks[0] == ks[0];
      assert h.values[ks[0] := h.values[ks[0]]] == h.values;
      assert forall k :: k in ks[1..] ==> k in ks;
      ReviveKeysEmptyPrefix(h, ks[1..]);
    }
  }

  /**
   * When the prefixed names are all fresh, the reviver appends one
   * prefixed copy of each visited property and changes nothing else.
   */
  lemma {:induction false} ReviveKeysOrder(h: PropMap, ks: seq<string>, prefix: string)
    requires Distinct(ks)
    requires forall k :: k in ks ==> k in h.values
    requires forall k :: k in ks ==> prefix + k !in h.values
    ensures ReviveKeys(h, ks, prefix).keys == h.keys + Prefixed(ks, prefix)
    decreases |ks|
  {
    if |ks| > 0 {
      var k0 := ks[0];
      var next := Set(h, prefix + k0, h.values[k0]);
      FreshAfterStep(h, ks, prefix);
      ReviveKeysOrder(next, ks[1..], prefix);
      assert next.keys == h.keys + [prefix + k0];
      PrefixedCons(h.keys, ks, prefix);
    }
  }

  lemma PrefixedCons(front: seq<string>, ks: seq<string>, prefix: string)
    requires |ks| > 0
    ensures front + [prefix + ks[0]] + Prefixed(ks[1..], prefix) == front + Prefixed(ks, prefix)
  {
    assert Prefixed(ks, prefix) == [prefix + ks[0]] + Prefixed(ks[1..], prefix);
  }

  /** After the first copy is written, the rest of the names still have fresh prefixed copies. */
  lemma FreshAfterStep(h: PropMap, ks: seq<string>, prefix: string)
    requires |ks| > 0 && Distinct(ks)
    requires forall k :: k in ks ==> k in h.values
    requires forall k :: k in ks ==> prefix + k !in h.values
    ensures Distinct(ks[1..])
    ensures forall k :: k in ks[1..] ==> k in h.values
    ensures forall k :: k in ks[1..] ==> prefix + k !in h.values[prefix + ks[0] := h.values[ks[0]]]
  {
    assert forall k :: k in ks[1..] ==> k in ks;
    forall k | k in ks[1..] ensures prefix + k != prefix + ks[0] {
      if prefix + k == prefix + ks[0] {
        PrefixInjective(prefix, k, ks[0]);
      }
    }
  }

  /** The reviver's effect on the dictionary alone. */
  function ReviveValues(h: map<string, Value>, ks: seq<string>, prefix: string): map<string, Value>
    decreases |ks|
  {
    if |ks| == 0 then h
    else ReviveValues(h[prefix + ks[0] := if ks[0] in h then h[ks[0]] else Undefined], ks[1..], prefix)
  }

  lemma {:induction false} ReviveKeysDictionary(h: PropMap, ks: seq<string>, prefix: string)
    ensures ReviveKeys(h, ks, prefix).values == ReviveValues(h.values, ks, prefix)
    decreases |ks|
  {
    if |ks| > 0 {
      ReviveKeysDictionary(Set(h, prefix + ks[0], Get(h, ks[0])), ks[1..], prefix);
    }
  }

  /** A name no visited property's prefixed copy hits keeps its value. */
  lemma {:induction false} ReviveValuesKeeps(h: map<string, Value>, ks: seq<string>, prefix: string, k: string)
    requires k in h
    requires forall j :: j in ks ==> prefix + j != k
    ensures k in ReviveValues(h, ks, prefix) && ReviveValues(h, ks, prefix)[k] == h[k]
    decreases |ks|
  {
    if |ks| > 0 {
      assert prefix + ks[0] != k;
      assert forall j :: j in ks[1..] ==> j in ks;
      ReviveValuesKeeps(h[prefix + ks[0] := if ks[0] in h then h[ks[0]] else Undefined], ks[1..], prefix, k);
    }
  }

  /** The prefixed copy of a visited property holds that property's value. */
  lemma {:induction false} ReviveValuesWrites(h: map<string, Value>, ks: seq<string>, prefix: string, i: nat)
    requires i < |ks| && Distinct(ks)
    requires forall j :: j in ks ==> j in h && prefix + j !in h
    ensures prefix + ks[i] in ReviveValues(h, ks, prefix) && ReviveValues(h, ks, prefix)[prefix + ks[i]] == h[ks[i]]
    decreases |ks|
  {
    var k0 := ks[0];
    var next := h[prefix + k0 := h[k0]];
    assert forall j :: j in ks[1..] ==> j in ks;
    forall j | j in ks[1..] ensures prefix + j != prefix + k0 {
      if prefix + j == prefix + k0 {
        PrefixInjective(prefix, j, k0);
      }
    }
    if i == 0 {
      ReviveValuesKeeps(next, ks[1..], prefix, prefix + k0);
    } else {
      assert ks[i] == ks[1..][i - 1];
      assert Distinct(ks[1..]);
      ReviveValuesWrites(next, ks[1..], prefix, i - 1);
    }
  }

  lemma ReviveKeysValues(h: PropMap, ks: seq<string>, prefix: string)
    requires Distinct(ks)
    requires forall k :: k in ks ==> k in h.values
    requires forall k :: k in ks ==> prefix + k !in h.values
    ensures forall k :: k in h.values ==> k in ReviveKeys(h, ks, prefix).values && ReviveKeys(h, ks, prefix).values[k] == h.values[k]
    ensures forall k :: k in ks ==> prefix + k in ReviveKeys(h, ks, prefix).values && ReviveKeys(h, ks, prefix).values[prefix + k] == h.values[k]
  {
    ReviveKeysDictionary(h, ks, prefix);
    forall k | k in h.values
      ensures k in ReviveValues(h.values, ks, prefix) && ReviveValues(h.values, ks, prefix)[k] == h.values[k]
    {
      ReviveValuesKeeps(h.values, ks, prefix, k);
    }
    forall k | k in ks
      ensures prefix + k in ReviveValues(h.values, ks, prefix) && ReviveValues(h.values, ks, prefix)[prefix + k] == h.values[k]
    {
      var i :| 0 <= i < |ks| && ks[i] == k;
      ReviveValuesWrites(h.values, ks, prefix, i);
    }
  }

  /**
   * When the prefixed names are all fresh, the reviver appends one
   * prefixed copy of each visited property and changes nothing else.
   */
  lemma ReviveKeysAppends(h: PropMap, ks: seq<string>, prefix: string)
    requires Distinct(ks)
    requires forall k :: k in ks ==> k in h.values
    requires forall k :: k in ks ==> prefix + k !in h.values
    ensures ReviveKeys(h, ks, prefix).keys == h.keys + Prefixed(ks, prefix)
    ensures forall k :: k in h.values ==> Lookup(ReviveKeys(h, ks, prefix), k) == Some(h.values[k])
    ensures forall k :: k in ks ==> Lookup(ReviveKeys(h, ks, prefix), prefix + k) == Some(h.values[k])
  {
    ReviveKeysOrder(h, ks, prefix);
    ReviveKeysValues(h, ks, prefix);
  }

  /**
   * Without a clash, the bindings are the mapping itself followed by its
   * prefixed copy: every field is bound both under its own name and under
   * the prefixed name, and nothing else is bound.
   */
  lemma ReviveSpec(m: PropMap, prefix: string)
    requires prefix == "" || NoPrefixClash(m, prefix)
    ensures prefix == "" ==> Revive(m, prefix) == m
    ensures prefix != "" ==> Revive(m, prefix).keys == m.keys + Prefixed(m.keys, prefix)
    ensures forall k :: k in m.values ==> Lookup(Revive(m, prefix), k) == Some(m.values[k])
    ensures forall k :: k in m.values ==> Lookup(Revive(m, prefix), prefix + k) == Some(m.values[k])
  {
    if prefix == "" {
      ReviveKeysEmptyPrefix(m, m.keys);
      assert forall k :: "" + k == k;
    } else {
      ReviveKeysAppends(m, m.keys, prefix);
    }
  }

  /** Without a clash, a bound name is a field name or the prefix followed by one. */
  lemma ReviveNames(m: PropMap, prefix: string)
    requires prefix != "" && NoPrefixClash(m, prefix)
    ensures forall x :: x in Revive(m, prefix).values ==>
      x in m.values || (|prefix| <= |x| && x[..|prefix|] == prefix && x[|prefix|..] in m.values)
  {
    var r := Revive(m, prefix);
    ReviveKeysOrder(m, m.keys, prefix);
    forall x | x in r.values
      ensures x in m.values || (|prefix| <= |x| && x[..|prefix|] == prefix && x[|prefix|..] in m.values)
    {
      assert x in m.keys + Prefixed(m.keys, prefix);
      if x !in m.keys {
        PrefixedMember(m.keys, prefix, x);
      }
    }
  }

  lemma PrefixedMember(ks: seq<string>, prefix: string, x: string)
    requires x in Prefixed(ks, prefix)
    ensures |prefix| <= |x| && x[..|prefix|] == prefix && x[|prefix|..] in ks
  {
    var i :| 0 <= i < |ks| && x == Prefixed(ks, prefix)[i];
    assert x[|prefix|..] == ks[i];
  }

  /**
   * The clash the reviver does not guard against: with fields `a` and
   * `prefix + a` (say `a` and `where_a` under the prefix `where_`), the
   * binding `prefix + a` is overwritten by the value of `a` before it is
   * visited, so both it and `prefix + prefix + a` end up bound to the value
   * of `a`; the value of the field `prefix + a` is bound nowhere.
   */
  lemma ReviveClash(m: PropMap, prefix: string, a: string)
    requires prefix != ""
    requires m.keys == [a, prefix + a]
    ensures Revive(m, prefix).values == m.values[prefix + a := m.values[a]][prefix + (prefix + a) := m.values[a]]
  {
    var h1 := Set(m, prefix + a, m.values[a]);
    assert |prefix + a| > |a|;
    assert m.keys[1..] == [prefix + a];
    assert Get(h1, prefix + a) == m.values[a];
    assert |prefix + (prefix + a)| > |prefix + a|;
    var h2 := Set(h1, prefix + (prefix + a), m.values[a]);
    assert ReviveKeys(h1, [prefix + a], prefix) == ReviveKeys(h2, [], prefix);
  }

  // ---------------------------------------------------------------------
  // Reading the texts back

  /** `key<sep>{name}` read back as `(key, name)`, splitting at the first `sep`. */
  function ParseToken(t: string, sep: char): Option<(string, string)>
  {
    var i := IndexOf(t, sep);
    if i < 0 then None
    else
      var rest := t[i + 1..];
      if |rest| >= 2 && rest[0] == '{' && rest[|rest| - 1] == '}' then Some((t[..i], rest[1..|rest| - 1]))
      else None
  }

  /** Each token, after the leading text `lead`, read back by ParseToken. */
  function ParseTokens(ts: seq<string>, lead: string, sep: char): Option<seq<(string, string)>>
    decreases |ts|
  {
    if |ts| == 0 then Some([])
    else if |ts[0]| < |lead| || ts[0][..|lead|] != lead then None
    else
      match (ParseToken(ts[0][|lead|..], sep), ParseTokens(ts[1..], lead, sep))
      case (Some(p), Some(ps)) => Some([p] + ps)
      case _ => None
  }

  /** The (field, placeholder) pairs of an inline pattern `{k:{pk},...}`. */
  function ParsePattern(s: string): Option<seq<(string, string)>>
  {
    if |s| < 2 || s[0] != '{' || s[|s| - 1] != '}' then None
    else if |s| == 2 then Some([])
    else ParseTokens(Split(s[1..|s| - 1], ','), "", ':')
  }

  /** The (field, placeholder) pairs of a SET list `alias.k={pk},...`. */
  function ParseForm(s: string, alias: string): Option<seq<(string, string)>>
  {
    if s == "" then Some([])
    else ParseTokens(Split(s, ','), alias + ".", '=')
  }

  /**
   * Substituting the bindings into the placeholders gives back exactly
   * `filter`: the same fields, in the same order, with the same values.
   */
  predicate Denotes(pairs: seq<(string, string)>, bindings: PropMap, filter: PropMap)
  {
    && |pairs| == |filter.keys|
    && forall i :: 0 <= i < |pairs| ==>
         pairs[i].0 == filter.keys[i] && Lookup(bindings, pairs[i].1) == Some(filter.values[filter.keys[i]])
  }

  /** Each field paired with its placeholder name `prefix + field`. */
  function Placeholders(keys: seq<string>, prefix: string): (r: seq<(string, string)>)
    ensures |r| == |keys|
    ensures forall i :: 0 <= i < |keys| ==> r[i] == (keys[i], prefix + keys[i])
  {
    seq(|keys|, i requires 0 <= i < |keys| => (keys[i], prefix + keys[i]))
  }

  /** A field name that the two texts can carry without ambiguity. */
  predicate SafeName(k: string)
  {
    ',' !in k && ':' !in k && '=' !in k
  }

  predicate SafeNames(m: PropMap)
  {
    forall k :: k in m.values ==> SafeName(k)
  }

  lemma {:induction false} ParseTokenOf(key: string, sep: char, name: string)
    requires sep !in key
    ensures ParseToken(key + [sep] + "{" + name + "}", sep) == Some((key, name))
  {
    var t := key + [sep] + "{" + name + "}";
    var i := IndexOf(t, sep);
    assert t[|key|] == sep;
    assert !(i < 0 || |key| < i);
    assert t[..i] == key;
    assert t[i + 1..] == "{" + name + "}";
  }

  lemma {:induction false} ParseTokensOf(keys: seq<string>, lead: string, sep: char, prefix: string, ts: seq<string>)
    requires |ts| == |keys|
    requires forall i :: 0 <= i < |keys| ==> sep !in keys[i]
    requires forall i :: 0 <= i < |keys| ==> ts[i] == lead + keys[i] + [sep] + "{" + prefix + keys[i] + "}"
    ensures ParseTokens(ts, lead, sep) == Some(Placeholders(keys, prefix))
    decreases |keys|
  {
    if |keys| > 0 {
      var t := ts[0];
      assert t[..|lead|] == lead;
      assert t[|lead|..] == keys[0] + [sep] + "{" + (prefix + keys[0]) + "}";
      ParseTokenOf(keys[0], sep, prefix + keys[0]);
      assert ParseToken(t[|lead|..], sep) == Some((keys[0], prefix + keys[0]));
      ParseTokensOf(keys[1..], lead, sep, prefix, ts[1..]);
      assert Placeholders(keys, prefix) == [(keys[0], prefix + keys[0])] + Placeholders(keys[1..], prefix);
    }
  }

  lemma JoinNonEmpty(parts: seq<string>, sep: char)
    requires |parts| >= 1 && parts[0] != ""
    ensures Join(parts, sep) != ""
  {
    if |parts| > 1 {
      assert Join(parts, sep)[0] == parts[0][0];
    }
  }

  /** The pattern text reads back as the (field, `prefix + field`) pairs, in order. */
  lemma PatternRoundTrip(keys: seq<string>, prefix: string)
    requires forall i :: 0 <= i < |keys| ==> SafeName(keys[i])
    requires ',' !in prefix
    ensures ParsePattern(PatternOf(keys, prefix)) == Some(Placeholders(keys, prefix))
  {
    var ts := PatternTokens(keys, prefix);
    var s := PatternOf(keys, prefix);
    assert s[1..|s| - 1] == Join(ts, ',');
    if |keys| > 0 {
      forall i | 0 <= i < |keys|
        ensures ts[i] == "" + keys[i] + [':'] + "{" + prefix + keys[i] + "}"
        ensures ',' !in ts[i]
      {
        assert ts[i] == "" + keys[i] + [':'] + "{" + prefix + keys[i] + "}";
      }
      JoinNonEmpty(ts, ',');
      SplitJoin(ts, ',');
      ParseTokensOf(keys, "", ':', prefix, ts);
    }
  }

  /** The SET list reads back as the (field, `prefix + field`) pairs, in order. */
  lemma FormRoundTrip(keys: seq<string>, prefix: string, alias: string)
    requires forall i :: 0 <= i < |keys| ==> SafeName(keys[i])
    requires ',' !in prefix && ',' !in alias
    ensures ParseForm(FormOf(keys, prefix, alias), alias) == Some(Placeholders(keys, prefix))
  {
    var ts := FormTokens(keys, prefix, alias);
    if |keys| > 0 {
      forall i | 0 <= i < |keys|
        ensures ts[i] == (alias + ".") + keys[i] + ['='] + "{" + prefix + keys[i] + "}"
        ensures ',' !in ts[i]
      {
        assert ts[i] == (alias + ".") + keys[i] + ['='] + "{" + prefix + keys[i] + "}";
      }
      assert |ts[0]| > 0;
      JoinNonEmpty(ts, ',');
      SplitJoin(ts, ',');
      ParseTokensOf(keys, alias + ".", '=', prefix, ts);
    }
  }

  /**
   * The three outputs of `parameterize` agree: reading the placeholders of
   * the pattern, or of the SET list, against the bindings gives back the
   * normalized mapping, field by field and in order.
   */
  lemma ParameterizeDenotes(obj: PropMap, prefix: string, alias: string)
    requires SafeNames(Normalize(obj))
    requires ',' !in prefix && ',' !in EffectiveAlias(alias)
    requires prefix == "" || NoPrefixClash(Normalize(obj), prefix)
    ensures var f := Parameterize(Some(obj), prefix, alias);
      && ParsePattern(f.str).Some? && Denotes(ParsePattern(f.str).value, f.json, Normalize(obj))
      && ParseForm(f.form, EffectiveAlias(alias)).Some?
      && Denotes(ParseForm(f.form, EffectiveAlias(alias)).value, f.json, Normalize(obj))
  {
    var m := Normalize(obj);
    var f := Parameterize(Some(obj), prefix, alias);
    assert Denotes(Placeholders(m.keys, prefix), f.json, m) by {
      ReviveSpec(m, prefix);
      PlaceholdersDenote(m, f.json, prefix);
    }
    SafeKeyList(m);
    PatternRoundTrip(m.keys, prefix);
    FormRoundTrip(m.keys, prefix, EffectiveAlias(alias));
  }

  lemma SafeKeyList(m: PropMap)
    requires SafeNames(m)
    ensures forall i :: 0 <= i < |m.keys| ==> SafeName(m.keys[i])
  {
    assert forall i :: 0 <= i < |m.keys| ==> m.keys[i] in m.values;
  }

  /** Placeholders whose bindings hold the mapping's values denote the mapping. */
  lemma PlaceholdersDenote(m: PropMap, json: PropMap, prefix: string)
    requires forall k :: k in m.values ==> Lookup(json, prefix + k) == Some(m.values[k])
    ensures Denotes(Placeholders(m.keys, prefix), json, m)
  {
    assert forall i :: 0 <= i < |m.keys| ==> m.keys[i] in m.values;
  }

  /** The normalized fields of `obj`; none when it is absent. */
  function Fields(obj: Option<PropMap>): (m: PropMap)
    ensures obj.None? ==> m.keys == []
  {
    if obj.Some? then Normalize(obj.value) else Empty()
  }

  /** Every field is bound in `params`, under `prefix + field`, to its value. */
  predicate Binds(params: PropMap, fields: PropMap, prefix: string)
  {
    forall k :: k in fields.values ==> Lookup(params, prefix + k) == Some(fields.values[k])
  }

  /** Without a clash, a fragment's own bindings bind its fields. */
  lemma FragmentBinds(obj: Option<PropMap>, prefix: string, alias: string)
    requires prefix == "" || NoPrefixClash(Fields(obj), prefix)
    ensures Binds(Parameterize(obj, prefix, alias).json, Fields(obj), prefix)
  {
    if obj.Some? {
      ReviveSpec(Normalize(obj.value), prefix);
    }
  }

  /** With no prefix, the bindings are exactly the normalized fields. */
  lemma UnprefixedBindings(obj: Option<PropMap>)
    ensures Parameterize(obj, "", "").json == Fields(obj)
  {
    if obj.Some? {
      ReviveSpec(Normalize(obj.value), "");
    }
  }

  /** Without a clash, a fragment binds only its fields and their prefixed names. */
  lemma FragmentNames(obj: Option<PropMap>, prefix: string, alias: string)
    requires prefix != "" && NoPrefixClash(Fields(obj), prefix)
    ensures forall x :: x in Parameterize(obj, prefix, alias).json.values ==>
      x in Fields(obj).values || (|prefix| <= |x| && x[..|prefix|] == prefix && x[|prefix|..] in Fields(obj).values)
  {
    if obj.Some? {
      ReviveNames(Normalize(obj.value), prefix);
    }
  }

  /**
   * Wherever a fragment's bindings end up, as long as they still bind its
   * fields, its pattern reads back as placeholders that denote those fields.
   */
  lemma PatternDenotesThrough(obj: Option<PropMap>, prefix: string, alias: string, params: PropMap)
    requires obj.Some? && SafeNames(Fields(obj)) && ',' !in prefix
    requires Binds(params, Fields(obj), prefix)
    ensures ParsePattern(Parameterize(obj, prefix, alias).str) == Some(Placeholders(Fields(obj).keys, prefix))
    ensures Denotes(Placeholders(Fields(obj).keys, prefix), params, Fields(obj))
  {
    var m := Fields(obj);
    PlaceholdersDenote(m, params, prefix);
    SafeKeyList(m);
    PatternRoundTrip(m.keys, prefix);
  }

  /** The same for the SET list. */
  lemma FormDenotesThrough(obj: Option<PropMap>, prefix: string, alias: string, params: PropMap)
    requires obj.Some? && SafeNames(Fields(obj)) && ',' !in prefix && ',' !in EffectiveAlias(alias)
    requires Binds(params, Fields(obj), prefix)
    ensures ParseForm(Parameterize(obj, prefix, alias).form, EffectiveAlias(alias)) == Some(Placeholders(Fields(obj).keys, prefix))
    ensures Denotes(Placeholders(Fields(obj).keys, prefix), params, Fields(obj))
  {
    var m := Fields(obj);
    PlaceholdersDenote(m, params, prefix);
    SafeKeyList(m);
    FormRoundTrip(m.keys, prefix, EffectiveAlias(alias));
  }

  /**
   * `parameterize` never writes a value into its texts: two mappings whose
   * normalized forms have the same field names in the same order give the
   * same pattern and the same SET list, whatever their values.
   */
  lemma TextsIgnoreValues(a: PropMap, b: PropMap, prefix: string, alias: string)
    requires Normalize(a).keys == Normalize(b).keys
    ensures Parameterize(Some(a), prefix, alias).str == Parameterize(Some(b), prefix, alias).str
    ensures Parameterize(Some(a), prefix, alias).form == Parameterize(Some(b), prefix, alias).form
  {
  }
}
