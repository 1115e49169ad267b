/**
 * The Cypher statements the adapter's operations send (lib/adapter.js):
 * the query text and its parameter set, built from the operation's
 * options. Every property value reaches the server through the
 * parameters; the query text carries labels, field names, placeholders
 * and the caller's raw `_where` / `limit` / `skip` / relation-type text.
 */
module QueryCompiler {
  import opened Optional
  import opened Text
  import opened OrderedMaps
  import opened JsValues
  import opened Normalizer
  import opened Util
  import opened Parameterizer

  /** The `params` member of a request: plain bindings, or `{props: ...}` for create. */
  datatype Params = Bindings(bindings: PropMap) | Props(props: PropMap)

  datatype Statement = Statement(query: string, params: Params)

  /** `v ? keyword + v : ''`: a clause that shows up only for a truthy value. */
  function Clause(keyword: string, v: Value): (c: string)
    ensures c == "" <==> !Truthy(v)
    ensures Truthy(v) ==> StartsWith(c, keyword) && c[|keyword|..] == ToText(v)
  {
    if Truthy(v) then
      TruthyTextNonEmpty(v);
      StartsWithConcat(keyword, ToText(v));
      keyword + ToText(v)
    else ""
  }

  /** `s || fallback` for a name. */
  function OrText(s: string, fallback: string): (r: string)
    ensures s != "" ==> r == s
    ensures s == "" ==> r == fallback
  {
    if s == "" then fallback else s
  }

  // ---------------------------------------------------------------------
  // Bindings surviving a merge

  /** Merging more bindings on the right keeps the bindings the right side does not name. */
  lemma BindsLeft(a: PropMap, b: PropMap, fields: PropMap, prefix: string)
    requires Binds(a, fields, prefix)
    requires forall k :: k in fields.values ==> prefix + k !in b.values
    ensures Binds(Merge(Some(a), Some(b)), fields, prefix)
  {
  }

  /** The right operand of a merge always wins. */
  lemma BindsRight(a: PropMap, b: PropMap, fields: PropMap, prefix: string)
    requires Binds(b, fields, prefix)
    ensures Binds(Merge(Some(a), Some(b)), fields, prefix)
  {
  }

  /**
   * Two fragments built with prefixes that start differently can only
   * collide through a raw field name: `pa + k` is bound by the other
   * fragment only when the other mapping has a field named `pa + k`.
   */
  lemma OtherFragmentLacks(a: Option<PropMap>, pa: string, b: Option<PropMap>, pb: string)
    requires pa != "" && pb != "" && pa[0] != pb[0]
    requires NoPrefixClash(Fields(b), pb)
    requires forall k :: k in Fields(a).values ==> pa + k !in Fields(b).values
    ensures forall k :: k in Fields(a).values ==> pa + k !in Parameterize(b, pb, "").json.values
  {
    FragmentNames(b, pb, "");
    forall k | k in Fields(a).values
      ensures pa + k !in Parameterize(b, pb, "").json.values
    {
      var x := pa + k;
      assert x[0] == pa[0];
      assert |pb| <= |x| ==> x[..|pb|][0] == x[0];
    }
  }

  // ---------------------------------------------------------------------
  // find

  /** `options.where._where`, the raw condition text. */
  function WhereExpr(where: Option<PropMap>): Value
  {
    Get(where.GetOr(Empty()), "_where")
  }

  /** `options.where` (or `{}`) after `delete options.where._where`. */
  function FilterOf(where: Option<PropMap>): (f: PropMap)
    ensures "_where" !in f.values
    ensures forall k :: k != "_where" ==> Lookup(f, k) == Lookup(where.GetOr(Empty()), k)
  {
    Remove(where.GetOr(Empty()), "_where")
  }

  function FindHead(collection: string, pattern: string): string
  {
    "MATCH (n:" + collection + pattern + ")"
  }

  /** The text of a find query, around its inline pattern. */
  function FindQuery(collection: string, pattern: string, cond: Value, limit: Value, skip: Value): string
  {
    FindHead(collection, pattern) + (Clause(" WHERE ", cond) + (" RETURN n" + (Clause(" SKIP ", skip) + Clause(" LIMIT ", limit))))
  }

  /**
   * `find`: match the label with the inline filter, then the raw WHERE
   * condition, then RETURN, then SKIP before LIMIT. The bindings are
   * exactly the normalized filter, without `_where`.
   */
  function FindStatement(collection: string, where: Option<PropMap>, limit: Value, skip: Value): (r: Statement)
    ensures r.params == Bindings(Fields(Some(FilterOf(where))))
    ensures "_where" !in r.params.bindings.values
    ensures r.query == FindQuery(collection, Parameterize(Some(FilterOf(where)), "", "").str, WhereExpr(where), limit, skip)
  {
    var f := Parameterize(Some(FilterOf(where)), "", "");
    UnprefixedBindings(Some(FilterOf(where)));
    Statement(FindQuery(collection, f.str, WhereExpr(where), limit, skip), Bindings(f.json))
  }

  lemma FindBinds(collection: string, where: Option<PropMap>, limit: Value, skip: Value)
    ensures Binds(FindStatement(collection, where, limit, skip).params.bindings, Fields(Some(FilterOf(where))), "")
  {
    SelfBinds(Fields(Some(FilterOf(where))));
  }

  /** A mapping binds its own fields under the empty prefix. */
  lemma SelfBinds(m: PropMap)
    ensures Binds(m, m, "")
  {
    forall k | k in m.values ensures Lookup(m, "" + k) == Some(m.values[k]) {
      assert "" + k == k;
    }
  }

  /**
   * The raw condition follows the pattern, as ` WHERE <text>`, exactly
   * when it is truthy; otherwise RETURN follows the pattern directly.
   */
  lemma FindWhereClause(collection: string, pattern: string, cond: Value, limit: Value, skip: Value)
    ensures var q := FindQuery(collection, pattern, cond, limit, skip);
      var head := FindHead(collection, pattern);
      && StartsWith(q, head)
      && (StartsWith(q[|head|..], " WHERE ") <==> Truthy(cond))
      && (Truthy(cond) ==> StartsWith(q[|head|..], " WHERE " + ToText(cond) + " RETURN n"))
      && (!Truthy(cond) ==> StartsWith(q[|head|..], " RETURN n"))
  {
    var head := FindHead(collection, pattern);
    var paging := Clause(" SKIP ", skip) + Clause(" LIMIT ", limit);
    var tail := Clause(" WHERE ", cond) + (" RETURN n" + paging);
    AfterPrefix(head, tail);
    WhereTail(cond, paging);
  }

  /** What follows the pattern of a find query: the optional WHERE clause, then RETURN. */
  lemma WhereTail(cond: Value, paging: string)
    ensures var tail := Clause(" WHERE ", cond) + (" RETURN n" + paging);
      && (StartsWith(tail, " WHERE ") <==> Truthy(cond))
      && (Truthy(cond) ==> StartsWith(tail, " WHERE " + ToText(cond) + " RETURN n"))
      && (!Truthy(cond) ==> StartsWith(tail, " RETURN n"))
  {
    if Truthy(cond) {
      StartsWithPieces(" WHERE ", ToText(cond), " RETURN n", paging);
    } else {
      AfterPrefix(" RETURN n", paging);
      NotStartsWith((" RETURN n" + paging)[1..], " WHERE "[1..]);
      assert !StartsWith(" RETURN n" + paging, " WHERE ") by {
        assert (" RETURN n" + paging)[1] == 'R';
      }
    }
  }

  /** The query ends with RETURN, then the SKIP clause, then the LIMIT clause. */
  lemma FindPaging(collection: string, pattern: string, cond: Value, limit: Value, skip: Value)
    ensures EndsWith(FindQuery(collection, pattern, cond, limit, skip),
                     " RETURN n" + Clause(" SKIP ", skip) + Clause(" LIMIT ", limit))
  {
    EndsWithPieces(FindHead(collection, pattern), Clause(" WHERE ", cond), " RETURN n", Clause(" SKIP ", skip), Clause(" LIMIT ", limit));
  }

  /**
   * The inline filter of `find` reads back as placeholders that the
   * statement's bindings resolve to the normalized filter.
   */
  lemma FindDenotes(collection: string, where: Option<PropMap>, limit: Value, skip: Value)
    requires SafeNames(Fields(Some(FilterOf(where))))
    ensures var filter := Some(FilterOf(where));
      && ParsePattern(Parameterize(filter, "", "").str) == Some(Placeholders(Fields(filter).keys, ""))
      && Denotes(Placeholders(Fields(filter).keys, ""), FindStatement(collection, where, limit, skip).params.bindings, Fields(filter))
  {
    FindBinds(collection, where, limit, skip);
    assert ',' !in "";
    PatternDenotesThrough(Some(FilterOf(where)), "", "", FindStatement(collection, where, limit, skip).params.bindings);
  }

  // ---------------------------------------------------------------------
  // create

  /**
   * `create`: the query is fixed but for the label; the normalized values
   * travel whole as the `props` parameter.
   */
  function CreateStatement(collection: string, values: PropMap): (r: Statement)
    ensures r.params.Props? && Normalized(r.params.props)
    ensures forall k :: k in r.params.props.values <==> k in values.values && !IsNullish(values.values[k])
    ensures forall k :: k in r.params.props.values && k != "id" ==> r.params.props.values[k] == values.values[k]
    ensures r.query == "CREATE (n:" + collection + "{props}) SET n.id = id(n) RETURN n"
    ensures r.params.props == Normalize(values)
  {
    NormalizeIsNormalized(values);
    Statement("CREATE (n:" + collection + "{props}) SET n.id = id(n) RETURN n", Props(Normalize(values)))
  }

  // ---------------------------------------------------------------------
  // update

  /** No prefix and the default alias contain a comma. */
  lemma PlainPrefixes()
    ensures ',' !in "where_" && ',' !in "vals_" && ',' !in "start_" && ',' !in "end_" && ',' !in "link_"
    ensures EffectiveAlias("") == "n" && ',' !in "n"
  {
  }

  function UpdateStatement(collection: string, where: Option<PropMap>, values: Option<PropMap>): (r: Statement)
    ensures r.params.Bindings?
    ensures forall x :: x in Parameterize(values, "vals_", "").json.values ==>
      Lookup(r.params.bindings, x) == Lookup(Parameterize(values, "vals_", "").json, x)
    ensures r.query == "MATCH (n:" + collection + Parameterize(where, "where_", "").str + ") SET "
                       + Parameterize(values, "vals_", "").form + " RETURN n"
  {
    var wf := Parameterize(where, "where_", "");
    var vf := Parameterize(values, "vals_", "");
    Statement("MATCH (n:" + collection + wf.str + ") SET " + vf.form + " RETURN n",
              Bindings(Merge(Some(wf.json), Some(vf.json))))
  }

  /**
   * `update`: every `where_` placeholder and every `vals_` placeholder is
   * bound to its own field's value, provided no field of the new values is
   * named `where_` followed by a filter field (the raw names of the values
   * are merged over the filter's bindings).
   */
  lemma UpdateBinds(collection: string, where: Option<PropMap>, values: Option<PropMap>)
    requires NoPrefixClash(Fields(where), "where_") && NoPrefixClash(Fields(values), "vals_")
    requires forall k :: k in Fields(where).values ==> "where_" + k !in Fields(values).values
    ensures Binds(UpdateStatement(collection, where, values).params.bindings, Fields(where), "where_")
    ensures Binds(UpdateStatement(collection, where, values).params.bindings, Fields(values), "vals_")
  {
    var wf := Parameterize(where, "where_", "");
    var vf := Parameterize(values, "vals_", "");
    FragmentBinds(where, "where_", "");
    FragmentBinds(values, "vals_", "");
    OtherFragmentLacks(where, "where_", values, "vals_");
    BindsLeft(wf.json, vf.json, Fields(where), "where_");
    BindsRight(wf.json, vf.json, Fields(values), "vals_");
  }

  /** Under the same conditions, the filter and the SET list read back as the filter and the values. */
  lemma UpdateDenotes(collection: string, where: Option<PropMap>, values: Option<PropMap>)
    requires where.Some? && values.Some?
    requires SafeNames(Fields(where)) && SafeNames(Fields(values))
    requires NoPrefixClash(Fields(where), "where_") && NoPrefixClash(Fields(values), "vals_")
    requires forall k :: k in Fields(where).values ==> "where_" + k !in Fields(values).values
    ensures var params := UpdateStatement(collection, where, values).params.bindings;
      && ParsePattern(Parameterize(where, "where_", "").str) == Some(Placeholders(Fields(where).keys, "where_"))
      && Denotes(Placeholders(Fields(where).keys, "where_"), params, Fields(where))
      && ParseForm(Parameterize(values, "vals_", "").form, "n") == Some(Placeholders(Fields(values).keys, "vals_"))
      && Denotes(Placeholders(Fields(values).keys, "vals_"), params, Fields(values))
  {
    var params := UpdateStatement(collection, where, values).params.bindings;
    var wm, vm := Fields(where), Fields(values);
    assert Binds(params, wm, "where_") && Binds(params, vm, "vals_") by {
      UpdateBinds(collection, where, values);
    }
    PlainPrefixes();
    PatternDenotesThrough(where, "where_", "", params);
    FormDenotesThrough(values, "vals_", "", params);
  }

  /**
   * The condition above is needed: a value field literally named
   * `where_a` takes over the filter's `{where_a}` placeholder.
   */
  lemma UpdateCrossClash(collection: string)
    ensures var where: PropMap := OMap(["a"], map["a" := Num(1)]);
      var values: PropMap := OMap(["where_a"], map["where_a" := Num(2)]);
      Lookup(UpdateStatement(collection, Some(where), Some(values)).params.bindings, "where_a") == Some(Num(2))
  {
    var values: PropMap := OMap(["where_a"], map["where_a" := Num(2)]);
    assert Normalize(values) == values by {
      assert "where_a" != "id";
      NormalizeFixesNormalized(values);
    }
    assert NoPrefixClash(values, "vals_") by {
      assert |"vals_" + "where_a"| != |"where_a"|;
    }
    ReviveSpec(values, "vals_");
    assert Lookup(Parameterize(Some(values), "vals_", "").json, "where_a") == Some(Num(2));
  }

  // ---------------------------------------------------------------------
  // destroy

  function DestroyStatement(collection: string, where: Option<PropMap>): (r: Statement)
    ensures r.params == Bindings(Parameterize(where, "where_", "").json)
    ensures StartsWith(r.query, "MATCH (n:" + collection + Parameterize(where, "where_", "").str + ")")
    ensures EndsWith(r.query, ") OPTIONAL MATCH (n)-[r]-() DELETE n,r")
    ensures r.query == "MATCH (n:" + collection + Parameterize(where, "where_", "").str + ")" + " OPTIONAL MATCH (n)-[r]-() DELETE n,r"
  {
    var wf := Parameterize(where, "where_", "");
    StartsWithConcat("MATCH (n:" + collection + wf.str + ")", " OPTIONAL MATCH (n)-[r]-() DELETE n,r");
    EndsWithConcat("MATCH (n:" + collection + wf.str, ") OPTIONAL MATCH (n)-[r]-() DELETE n,r");
    assert "MATCH (n:" + collection + wf.str + ")" + " OPTIONAL MATCH (n)-[r]-() DELETE n,r"
        == "MATCH (n:" + collection + wf.str + ") OPTIONAL MATCH (n)-[r]-() DELETE n,r" by {
      CloseThenCascade("MATCH (n:" + collection + wf.str);
    }
    Statement("MATCH (n:" + collection + wf.str + ")" + " OPTIONAL MATCH (n)-[r]-() DELETE n,r", Bindings(wf.json))
  }

  lemma CloseThenCascade(head: string)
    ensures head + ")" + " OPTIONAL MATCH (n)-[r]-() DELETE n,r" == head + ") OPTIONAL MATCH (n)-[r]-() DELETE n,r"
  {
    assert ")" + " OPTIONAL MATCH (n)-[r]-() DELETE n,r" == ") OPTIONAL MATCH (n)-[r]-() DELETE n,r";
  }

  /** `destroy`: the filter reads back as placeholders bound to the filter's values. */
  lemma DestroyDenotes(collection: string, where: Option<PropMap>)
    requires where.Some? && SafeNames(Fields(where)) && NoPrefixClash(Fields(where), "where_")
    ensures ParsePattern(Parameterize(where, "where_", "").str) == Some(Placeholders(Fields(where).keys, "where_"))
    ensures Denotes(Placeholders(Fields(where).keys, "where_"), DestroyStatement(collection, where).params.bindings, Fields(where))
  {
    FragmentBinds(where, "where_", "");
    PlainPrefixes();
    PatternDenotesThrough(where, "where_", "", DestroyStatement(collection, where).params.bindings);
  }

  // ---------------------------------------------------------------------
  // link and unlink

  /**
   * The options of `link` / `unlink`: the two endpoint filters, the
   * relationship's properties, the second label and the relationship type
   * ("" when not given) and whether the match ignores direction.
   */
  datatype LinkRequest = LinkRequest(
    start: Option<PropMap>, end: Option<PropMap>, values: Option<PropMap>,
    endLabel: string, relation: string, bidirectional: bool)

  /**
   * `values.createdAt = values.createdAt || new Date()` and the same for
   * `updatedAt`, on `values || {}`; the two clock readings are parameters.
   */
  function StampTimes(values: Option<PropMap>, created: Value, updated: Value): (r: PropMap)
    ensures Lookup(r, "createdAt") == Some(Or(Get(values.GetOr(Empty()), "createdAt"), created))
    ensures Lookup(r, "updatedAt") == Some(Or(Get(values.GetOr(Empty()), "updatedAt"), updated))
    ensures forall k :: k != "createdAt" && k != "updatedAt" ==> Lookup(r, k) == Lookup(values.GetOr(Empty()), k)
    ensures r.keys == values.GetOr(Empty()).keys
                      + (if "createdAt" in values.GetOr(Empty()).values then [] else ["createdAt"])
                      + (if "updatedAt" in values.GetOr(Empty()).values then [] else ["updatedAt"])
  {
    var v := values.GetOr(Empty());
    StampLookups(v, Or(Get(v, "createdAt"), created), Or(Get(v, "updatedAt"), updated));
    Set(Set(v, "createdAt", Or(Get(v, "createdAt"), created)), "updatedAt", Or(Get(v, "updatedAt"), updated))
  }

  lemma StampLookups(v: PropMap, c: Value, u: Value)
    ensures var r := Set(Set(v, "createdAt", c), "updatedAt", u);
      && Lookup(r, "createdAt") == Some(c) && Lookup(r, "updatedAt") == Some(u)
      && (forall k :: k != "createdAt" && k != "updatedAt" ==> Lookup(r, k) == Lookup(v, k))
      && r.keys == v.keys + (if "createdAt" in v.values then [] else ["createdAt"])
                          + (if "updatedAt" in v.values then [] else ["updatedAt"])
  {
    assert "createdAt"[0] != "updatedAt"[0];
  }

  function LinkParamsOf(f1: Fragment, f2: Fragment, f3: Fragment): PropMap
  {
    Merge(Some(f3.json), Some(Merge(Some(f1.json), Some(f2.json))))
  }

  /** `link`: match both endpoints, create the relationship with its stamped properties. */
  function LinkStatement(collection: string, req: LinkRequest, created: Value, updated: Value): (r: Statement)
    ensures r.params.Bindings?
    ensures forall x :: x in Parameterize(req.end, "end_", "").json.values ==>
      Lookup(r.params.bindings, x) == Lookup(Parameterize(req.end, "end_", "").json, x)
    ensures r.query == "MATCH (n:" + collection + Parameterize(req.start, "start_", "").str
                       + "),(m:" + OrText(req.endLabel, collection) + Parameterize(req.end, "end_", "").str
                       + ") CREATE (n)-[r:" + OrText(req.relation, "link")
                       + Parameterize(Some(StampTimes(req.values, created, updated)), "link_", "").str + "]->(m) RETURN r"
  {
    var f1 := Parameterize(req.start, "start_", "");
    var f2 := Parameterize(req.end, "end_", "");
    var f3 := Parameterize(Some(StampTimes(req.values, created, updated)), "link_", "");
    Statement("MATCH (n:" + collection + f1.str + "),(m:" + OrText(req.endLabel, collection) + f2.str
                + ") CREATE (n)-[r:" + OrText(req.relation, "link") + f3.str + "]->(m) RETURN r",
              Bindings(LinkParamsOf(f1, f2, f3)))
  }

  /**
   * The fields of the three fragments of a link statement stay bound, as
   * long as no raw field name is another fragment's prefix followed by one
   * of its fields.
   */
  lemma LinkFragmentsBind(start: Option<PropMap>, end: Option<PropMap>, rel: Option<PropMap>)
    requires NoPrefixClash(Fields(start), "start_") && NoPrefixClash(Fields(end), "end_")
    requires NoPrefixClash(Fields(rel), "link_")
    requires forall k :: k in Fields(start).values ==> "start_" + k !in Fields(end).values
    requires forall k :: k in Fields(rel).values ==> "link_" + k !in Fields(start).values && "link_" + k !in Fields(end).values
    ensures var params := LinkParamsOf(Parameterize(start, "start_", ""), Parameterize(end, "end_", ""), Parameterize(rel, "link_", ""));
      && Binds(params, Fields(start), "start_") && Binds(params, Fields(end), "end_") && Binds(params, Fields(rel), "link_")
  {
    var f1 := Parameterize(start, "start_", "");
    var f2 := Parameterize(end, "end_", "");
    var f3 := Parameterize(rel, "link_", "");
    var inner := Merge(Some(f1.json), Some(f2.json));
    FragmentBinds(start, "start_", "");
    FragmentBinds(end, "end_", "");
    FragmentBinds(rel, "link_", "");
    OtherFragmentLacks(start, "start_", end, "end_");
    BindsLeft(f1.json, f2.json, Fields(start), "start_");
    BindsRight(f1.json, f2.json, Fields(end), "end_");
    OtherFragmentLacks(rel, "link_", start, "start_");
    OtherFragmentLacks(rel, "link_", end, "end_");
    BindsLeft(f3.json, inner, Fields(rel), "link_");
    BindsRight(f3.json, inner, Fields(start), "start_");
    BindsRight(f3.json, inner, Fields(end), "end_");
  }

  /** `link`: the endpoint placeholders and the relationship placeholders are bound to their fields. */
  lemma LinkBinds(collection: string, req: LinkRequest, created: Value, updated: Value)
    requires NoPrefixClash(Fields(req.start), "start_") && NoPrefixClash(Fields(req.end), "end_")
    requires NoPrefixClash(Fields(Some(StampTimes(req.values, created, updated))), "link_")
    requires forall k :: k in Fields(req.start).values ==> "start_" + k !in Fields(req.end).values
    requires forall k :: k in Fields(Some(StampTimes(req.values, created, updated))).values ==>
      "link_" + k !in Fields(req.start).values && "link_" + k !in Fields(req.end).values
    ensures var params := LinkStatement(collection, req, created, updated).params.bindings;
      && Binds(params, Fields(req.start), "start_") && Binds(params, Fields(req.end), "end_")
      && Binds(params, Fields(Some(StampTimes(req.values, created, updated))), "link_")
  {
    LinkFragmentsBind(req.start, req.end, Some(StampTimes(req.values, created, updated)));
  }

  /**
   * `link`: each of the three patterns in the query reads back as
   * placeholders that the bindings resolve to that pattern's fields, under
   * the conditions of `LinkBinds`.
   */
  lemma LinkDenotes(collection: string, req: LinkRequest, created: Value, updated: Value)
    requires req.start.Some? && req.end.Some?
    requires SafeNames(Fields(req.start)) && SafeNames(Fields(req.end))
    requires SafeNames(Fields(Some(StampTimes(req.values, created, updated))))
    requires NoPrefixClash(Fields(req.start), "start_") && NoPrefixClash(Fields(req.end), "end_")
    requires NoPrefixClash(Fields(Some(StampTimes(req.values, created, updated))), "link_")
    requires forall k :: k in Fields(req.start).values ==> "start_" + k !in Fields(req.end).values
    requires forall k :: k in Fields(Some(StampTimes(req.values, created, updated))).values ==>
      "link_" + k !in Fields(req.start).values && "link_" + k !in Fields(req.end).values
    ensures var params := LinkStatement(collection, req, created, updated).params.bindings;
      var stamped := Some(StampTimes(req.values, created, updated));
      && ParsePattern(Parameterize(req.start, "start_", "").str) == Some(Placeholders(Fields(req.start).keys, "start_"))
      && Denotes(Placeholders(Fields(req.start).keys, "start_"), params, Fields(req.start))
      && ParsePattern(Parameterize(req.end, "end_", "").str) == Some(Placeholders(Fields(req.end).keys, "end_"))
      && Denotes(Placeholders(Fields(req.end).keys, "end_"), params, Fields(req.end))
      && ParsePattern(Parameterize(stamped, "link_", "").str) == Some(Placeholders(Fields(stamped).keys, "link_"))
      && Denotes(Placeholders(Fields(stamped).keys, "link_"), params, Fields(stamped))
  {
    var params := LinkStatement(collection, req, created, updated).params.bindings;
    var stamped := Some(StampTimes(req.values, created, updated));
    LinkBinds(collection, req, created, updated);
    PlainPrefixes();
    PatternDenotesThrough(req.start, "start_", "", params);
    PatternDenotesThrough(req.end, "end_", "", params);
    PatternDenotesThrough(stamped, "link_", "", params);
  }

  /** A truthy-or-date value survives normalization unchanged under a name other than `id`. */
  lemma NormalizeKeeps(m: PropMap, k: string, v: Value)
    requires Lookup(m, k) == Some(v) && !IsNullish(v) && k != "id"
    ensures Lookup(Normalize(m), k) == Some(v)
  {
  }

  lemma OrDateNotNullish(a: Value, b: Value)
    requires b.Date?
    ensures !IsNullish(Or(a, b))
  {
  }

  /** Clock readings are dates, so both timestamps survive normalization. */
  lemma StampedFields(values: Option<PropMap>, created: Value, updated: Value)
    requires created.Date? && updated.Date?
    ensures var fields := Fields(Some(StampTimes(values, created, updated)));
      && Lookup(fields, "createdAt") == Some(Or(Get(values.GetOr(Empty()), "createdAt"), created))
      && Lookup(fields, "updatedAt") == Some(Or(Get(values.GetOr(Empty()), "updatedAt"), updated))
  {
    var v := values.GetOr(Empty());
    var stamped := StampTimes(values, created, updated);
    OrDateNotNullish(Get(v, "createdAt"), created);
    OrDateNotNullish(Get(v, "updatedAt"), updated);
    NormalizeKeeps(stamped, "createdAt", Or(Get(v, "createdAt"), created));
    NormalizeKeeps(stamped, "updatedAt", Or(Get(v, "updatedAt"), updated));
  }

  /** A bound field is found under its prefixed name. */
  lemma BoundField(params: PropMap, fields: PropMap, prefix: string, k: string, v: Value)
    requires Binds(params, fields, prefix) && Lookup(fields, k) == Some(v)
    ensures Lookup(params, prefix + k) == Some(v)
  {
  }

  lemma StampNames()
    ensures "link_" + "createdAt" == "link_createdAt" && "link_" + "updatedAt" == "link_updatedAt"
  {
  }

  /**
   * `link`: `{link_createdAt}` and `{link_updatedAt}` are bound to the
   * caller's timestamps when those are truthy, else to the clock readings.
   */
  lemma LinkTimestamps(collection: string, req: LinkRequest, created: Value, updated: Value)
    requires created.Date? && updated.Date?
    requires NoPrefixClash(Fields(req.start), "start_") && NoPrefixClash(Fields(req.end), "end_")
    requires NoPrefixClash(Fields(Some(StampTimes(req.values, created, updated))), "link_")
    requires forall k :: k in Fields(req.start).values ==> "start_" + k !in Fields(req.end).values
    requires forall k :: k in Fields(Some(StampTimes(req.values, created, updated))).values ==>
      "link_" + k !in Fields(req.start).values && "link_" + k !in Fields(req.end).values
    ensures var params := LinkStatement(collection, req, created, updated).params.bindings;
      && Lookup(params, "link_createdAt") == Some(Or(Get(req.values.GetOr(Empty()), "createdAt"), created))
      && Lookup(params, "link_updatedAt") == Some(Or(Get(req.values.GetOr(Empty()), "updatedAt"), updated))
  {
    var params := LinkStatement(collection, req, created, updated).params.bindings;
    var fields := Fields(Some(StampTimes(req.values, created, updated)));
    var c := Or(Get(req.values.GetOr(Empty()), "createdAt"), created);
    var u := Or(Get(req.values.GetOr(Empty()), "updatedAt"), updated);
    assert Binds(params, fields, "link_") by {
      LinkBinds(collection, req, created, updated);
    }
    assert Lookup(fields, "createdAt") == Some(c) && Lookup(fields, "updatedAt") == Some(u) by {
      StampedFields(req.values, created, updated);
    }
    BoundField(params, fields, "link_", "createdAt", c);
    BoundField(params, fields, "link_", "updatedAt", u);
    StampNames();
  }

  /** `bidirectional ? '-' : '->'`. */
  function Direction(bidirectional: bool): string
  {
    if bidirectional then "-" else "->"
  }

  /** The text of an unlink query, around its three inline patterns. */
  function UnlinkQuery(collection: string, startPattern: string, endLabel: string, endPattern: string,
                       relType: string, relPattern: string, bidirectional: bool): string
  {
    UnlinkMatch(collection, startPattern, endLabel, endPattern, relType, relPattern) + UnlinkTail(bidirectional)
  }

  function UnlinkMatch(collection: string, startPattern: string, endLabel: string, endPattern: string,
                       relType: string, relPattern: string): string
  {
    "MATCH (n:" + collection + startPattern + "),(m:" + endLabel + endPattern + "),(n)-[r:" + relType + relPattern
  }

  function UnlinkTail(bidirectional: bool): string
  {
    "]" + Direction(bidirectional) + "(m) DELETE r"
  }

  /** `unlink`: match both endpoints and the relationship between them, and delete it. */
  function UnlinkStatement(collection: string, req: LinkRequest): (r: Statement)
    ensures r.params.Bindings?
    ensures forall x :: x in Parameterize(req.end, "end_", "").json.values ==>
      Lookup(r.params.bindings, x) == Lookup(Parameterize(req.end, "end_", "").json, x)
    ensures r.query == UnlinkQuery(collection, Parameterize(req.start, "start_", "").str, OrText(req.endLabel, collection),
      Parameterize(req.end, "end_", "").str, OrText(req.relation, "link"), Parameterize(req.values, "link_", "").str, req.bidirectional)
  {
    var f1 := Parameterize(req.start, "start_", "");
    var f2 := Parameterize(req.end, "end_", "");
    var f3 := Parameterize(req.values, "link_", "");
    Statement(UnlinkQuery(collection, f1.str, OrText(req.endLabel, collection), f2.str, OrText(req.relation, "link"), f3.str, req.bidirectional),
              Bindings(LinkParamsOf(f1, f2, f3)))
  }

  /** The relationship is matched in the start-to-end direction exactly when the request is not bidirectional. */
  lemma UnlinkDirection(collection: string, startPattern: string, endLabel: string, endPattern: string,
                        relType: string, relPattern: string, bidirectional: bool)
    ensures var q := UnlinkQuery(collection, startPattern, endLabel, endPattern, relType, relPattern, bidirectional);
      && (EndsWith(q, "]->(m) DELETE r") <==> !bidirectional)
      && (EndsWith(q, "]-(m) DELETE r") <==> bidirectional)
  {
    var front := UnlinkMatch(collection, startPattern, endLabel, endPattern, relType, relPattern);
    if bidirectional {
      assert UnlinkTail(bidirectional) == "]-(m) DELETE r";
      EndsWithConcat(front, "]-(m) DELETE r");
      NotEndsWith(front, "]-(m) DELETE r", "]->(m) DELETE r", 12);
    } else {
      assert UnlinkTail(bidirectional) == "]->(m) DELETE r";
      EndsWithConcat(front, "]->(m) DELETE r");
      NotEndsWith(front, "]->(m) DELETE r", "]-(m) DELETE r", 12);
    }
  }

  /** Without a clash the unlink bindings resolve every endpoint and relationship placeholder. */
  lemma UnlinkBinds(collection: string, req: LinkRequest)
    requires NoPrefixClash(Fields(req.start), "start_") && NoPrefixClash(Fields(req.end), "end_")
    requires NoPrefixClash(Fields(req.values), "link_")
    requires forall k :: k in Fields(req.start).values ==> "start_" + k !in Fields(req.end).values
    requires forall k :: k in Fields(req.values).values ==> "link_" + k !in Fields(req.start).values && "link_" + k !in Fields(req.end).values
    ensures var params := UnlinkStatement(collection, req).params.bindings;
      && Binds(params, Fields(req.start), "start_") && Binds(params, Fields(req.end), "end_") && Binds(params, Fields(req.values), "link_")
  {
    LinkFragmentsBind(req.start, req.end, req.values);
  }

  // ---------------------------------------------------------------------
  // count and nearby

  /** `count`: the filter comes from `options.match`; the bindings are exactly its normalized fields. */
  function CountStatement(collection: string, filter: Option<PropMap>): (r: Statement)
    ensures r.params == Bindings(Fields(filter))
    ensures EndsWith(r.query, ") RETURN count(n)")
    ensures r.query == "MATCH (n:" + collection + Parameterize(filter, "", "").str + ") RETURN count(n)"
  {
    var f := Parameterize(filter, "", "");
    UnprefixedBindings(filter);
    EndsWithConcat("MATCH (n:" + collection + f.str, ") RETURN count(n)");
    Statement("MATCH (n:" + collection + f.str + ") RETURN count(n)", Bindings(f.json))
  }

  /** The pattern of `count` reads back as placeholders bound to the normalized filter. */
  lemma CountDenotes(collection: string, filter: Option<PropMap>)
    requires filter.Some? && SafeNames(Fields(filter))
    ensures ParsePattern(Parameterize(filter, "", "").str) == Some(Placeholders(Fields(filter).keys, ""))
    ensures Denotes(Placeholders(Fields(filter).keys, ""), CountStatement(collection, filter).params.bindings, Fields(filter))
  {
    SelfBinds(Fields(filter));
    assert ',' !in "";
    PatternDenotesThrough(filter, "", "", CountStatement(collection, filter).params.bindings);
  }

  /**
   * The search circle of the spatial index, as the three decimal texts the
   * query embeds (latitude and longitude to 13 places, distance to 2).
   */
  datatype Anchor = Anchor(lat: string, lon: string, dist: string)

  function WithinDistance(node: string, a: Anchor): string
  {
    "START " + node + "=node:geom(\"withinDistance:[" + a.lat + "," + a.lon + "," + a.dist + "]\") "
  }

  /** `nearby`: start from the spatial index, then match the label with the filter. */
  function NearbyStatement(collection: string, where: Option<PropMap>, anchor: Anchor): (r: Statement)
    ensures r.params == Bindings(Fields(where))
    ensures StartsWith(r.query, WithinDistance("n", anchor))
    ensures r.query == WithinDistance("n", anchor) + ("MATCH (n:" + collection + Parameterize(where, "", "").str + ") RETURN n")
  {
    var f := Parameterize(where, "", "");
    UnprefixedBindings(where);
    StartsWithConcat(WithinDistance("n", anchor), "MATCH (n:" + collection + f.str + ") RETURN n");
    Statement(WithinDistance("n", anchor) + ("MATCH (n:" + collection + f.str + ") RETURN n"), Bindings(f.json))
  }

  /** The pattern of `nearby` reads back as placeholders bound to the normalized filter. */
  lemma NearbyDenotes(collection: string, where: Option<PropMap>, anchor: Anchor)
    requires where.Some? && SafeNames(Fields(where))
    ensures ParsePattern(Parameterize(where, "", "").str) == Some(Placeholders(Fields(where).keys, ""))
    ensures Denotes(Placeholders(Fields(where).keys, ""), NearbyStatement(collection, where, anchor).params.bindings, Fields(where))
  {
    SelfBinds(Fields(where));
    assert ',' !in "";
    PatternDenotesThrough(where, "", "", NearbyStatement(collection, where, anchor).params.bindings);
  }

  // ---------------------------------------------------------------------
  // graph

  /** One entry of `params.relations`. */
  datatype RelationSpec = RelationSpec(relType: string, required: bool)

  /** The options of `graph`: the `me` filter, the `where` filter on `them`, the circle and the relations. */
  datatype GraphRequest = GraphRequest(me: Option<PropMap>, where: Option<PropMap>, nearby: Option<Anchor>, relations: seq<RelationSpec>)

  function RelName(i: nat): string
  {
    "r" + NatText(i)
  }

  function HopName(i: nat): string
  {
    "h" + NatText(i)
  }

  /** `hop + '=shortestPath(me-[' + rel + ':' + type + ']-them)'`. */
  function HopPath(i: nat, relType: string): string
  {
    HopName(i) + "=shortestPath(me-[" + RelName(i) + ":" + relType + "]-them)"
  }

  /** `(required ? '' : 'OPTIONAL ') + 'MATCH ' + path`. */
  function MatchClause(required: bool, path: string): string
  {
    (if required then "" else "OPTIONAL ") + ("MATCH " + path)
  }

  lemma MatchClauseShape(required: bool, path: string)
    ensures StartsWith(MatchClause(required, path), "OPTIONAL ") <==> !required
    ensures StartsWith(MatchClause(required, path), "OPTIONAL MATCH ") || StartsWith(MatchClause(required, path), "MATCH ")
  {
    var m := "MATCH " + path;
    StartsWithConcat("MATCH ", path);
    if required {
      assert MatchClause(required, path) == m;
      NotStartsWith(m, "OPTIONAL ");
    } else {
      StartsWithConcat("OPTIONAL ", m);
      assert "OPTIONAL " + m == "OPTIONAL MATCH " + path;
      StartsWithConcat("OPTIONAL MATCH ", path);
    }
  }

  /** The clause for the relation numbered `i` (from 1). */
  function HopClause(i: nat, rel: RelationSpec): (c: string)
    ensures StartsWith(c, "OPTIONAL ") <==> !rel.required
    ensures StartsWith(c, "OPTIONAL MATCH ") || StartsWith(c, "MATCH ")
    ensures c == (if rel.required then "" else "OPTIONAL ")
                 + ("MATCH " + (HopName(i) + "=shortestPath(me-[" + RelName(i) + ":" + rel.relType + "]-them)"))
  {
    MatchClauseShape(rel.required, HopPath(i, rel.relType));
    MatchClause(rel.required, HopPath(i, rel.relType))
  }

  function HopClauses(rels: seq<RelationSpec>): (cs: seq<string>)
    ensures |cs| == |rels|
    ensures forall j :: 0 <= j < |rels| ==> cs[j] == HopClause(j + 1, rels[j])
  {
    seq(|rels|, j requires 0 <= j < |rels| => HopClause(j + 1, rels[j]))
  }

  /** `rets`: `them`, `me`, then `r<i>`, `h<i>` for each relation in turn. */
  function ReturnNames(n: nat): (names: seq<string>)
    ensures |names| == 2 + 2 * n
    ensures names[0] == "them" && names[1] == "me"
    ensures forall i :: 1 <= i <= n ==> names[2 * i] == RelName(i) && names[2 * i + 1] == HopName(i)
  {
    if n == 0 then ["them", "me"] else ReturnNames(n - 1) + [RelName(n), HopName(n)]
  }

  function GraphStart(nearby: Option<Anchor>): string
  {
    if nearby.Some? then WithinDistance("them", nearby.value) else ""
  }

  /** The text of a graph query, around its two inline patterns. */
  function GraphQuery(start: string, collection: string, mePattern: string, themPattern: string,
                      notSelf: bool, rels: seq<RelationSpec>): string
  {
    GraphHead(start, collection, mePattern, themPattern) + (NotSelfText(notSelf) + GraphRest(rels))
  }

  /** `params.me ? 'WHERE them.id <> me.id ' : ''`. */
  function NotSelfText(notSelf: bool): string
  {
    if notSelf then "WHERE them.id <> me.id " else ""
  }

  /** The relation clauses, then the RETURN list. */
  function GraphRest(rels: seq<RelationSpec>): string
  {
    Join(HopClauses(rels), ' ') + (" RETURN DISTINCT " + Join(ReturnNames(|rels|), ','))
  }

  function GraphHead(start: string, collection: string, mePattern: string, themPattern: string): string
  {
    start + "MATCH (me:" + collection + mePattern + "),(them:" + collection + themPattern + ") "
  }

  /**
   * `graph`: match `me` and `them`, one shortest path per relation, and
   * return them all; `them.id <> me.id` is required when `me` is given.
   */
  function GraphStatement(collection: string, req: GraphRequest): (r: Statement)
    ensures r.params.Bindings?
    ensures forall x :: x in Parameterize(req.where, "them_", "").json.values ==>
      Lookup(r.params.bindings, x) == Lookup(Parameterize(req.where, "them_", "").json, x)
    ensures r.query == GraphQuery(GraphStart(req.nearby), collection, Parameterize(req.me, "me_", "").str,
      Parameterize(req.where, "them_", "").str, req.me.Some?, req.relations)
  {
    var mf := Parameterize(req.me, "me_", "");
    var tf := Parameterize(req.where, "them_", "");
    Statement(GraphQuery(GraphStart(req.nearby), collection, mf.str, tf.str, req.me.Some?, req.relations),
              Bindings(Merge(Some(mf.json), Some(tf.json))))
  }

  lemma JoinStartsWith(parts: seq<string>, sep: char)
    requires |parts| >= 1
    ensures StartsWith(Join(parts, sep), parts[0])
  {
    if |parts| > 1 {
      StartsWithConcat(parts[0], [sep] + Join(parts[1..], sep));
      assert Join(parts, sep) == parts[0] + ([sep] + Join(parts[1..], sep));
    }
  }

  /** `me` is always matched, right after the optional START, whether or not it is filtered. */
  lemma GraphMatchesMe(start: string, collection: string, mePattern: string, themPattern: string,
                       notSelf: bool, rels: seq<RelationSpec>)
    ensures StartsWith(GraphQuery(start, collection, mePattern, themPattern, notSelf, rels), start + "MATCH (me:" + collection)
    ensures ReturnNames(|rels|)[1] == "me"
  {
    var head := GraphHead(start, collection, mePattern, themPattern);
    AfterPrefix(head, NotSelfText(notSelf) + GraphRest(rels));
    StartsWithFirst(start + "MATCH (me:" + collection, mePattern, "),(them:", collection, themPattern, ") ");
    StartsWithTrans(GraphQuery(start, collection, mePattern, themPattern, notSelf, rels), head, start + "MATCH (me:" + collection);
  }

  /** The self-exclusion condition follows the MATCH exactly when asked for. */
  lemma GraphNotSelf(start: string, collection: string, mePattern: string, themPattern: string,
                     notSelf: bool, rels: seq<RelationSpec>)
    ensures var q := GraphQuery(start, collection, mePattern, themPattern, notSelf, rels);
      var head := GraphHead(start, collection, mePattern, themPattern);
      && StartsWith(q, head)
      && (StartsWith(q[|head|..], "WHERE them.id <> me.id ") <==> notSelf)
  {
    var head := GraphHead(start, collection, mePattern, themPattern);
    var rest := GraphRest(rels);
    AfterPrefix(head, NotSelfText(notSelf) + rest);
    if notSelf {
      AfterPrefix("WHERE them.id <> me.id ", rest);
    } else {
      assert NotSelfText(notSelf) + rest == rest;
      RestLead(rels);
      NotStartsWith(rest, "WHERE them.id <> me.id ");
    }
  }

  /** The part after the optional condition starts with a MATCH clause or with the RETURN. */
  lemma RestLead(rels: seq<RelationSpec>)
    ensures |GraphRest(rels)| > 0 && GraphRest(rels)[0] in {'O', 'M', ' '}
  {
    var hops := Join(HopClauses(rels), ' ');
    AfterPrefix(hops, " RETURN DISTINCT " + Join(ReturnNames(|rels|), ','));
    if |rels| > 0 {
      JoinStartsWith(HopClauses(rels), ' ');
      var c0 := HopClauses(rels)[0];
      assert StartsWith(c0, "OPTIONAL MATCH ") || StartsWith(c0, "MATCH ");
      assert c0[0] == 'O' || c0[0] == 'M';
      assert hops[0] == c0[0];
    } else {
      assert hops == "";
    }
  }

  /** The query ends with the RETURN list, which splits back into its names. */
  lemma GraphReturnList(start: string, collection: string, mePattern: string, themPattern: string,
                        notSelf: bool, rels: seq<RelationSpec>)
    ensures EndsWith(GraphQuery(start, collection, mePattern, themPattern, notSelf, rels),
                     " RETURN DISTINCT " + Join(ReturnNames(|rels|), ','))
    ensures Split(Join(ReturnNames(|rels|), ','), ',') == ReturnNames(|rels|)
  {
    var names := ReturnNames(|rels|);
    EndsWithLast(GraphHead(start, collection, mePattern, themPattern), NotSelfText(notSelf),
                 Join(HopClauses(rels), ' '), " RETURN DISTINCT " + Join(names, ','));
    forall i | 0 <= i < |names| ensures ',' !in names[i] {
      ReturnNameShape(|rels|, i);
    }
    SplitJoin(names, ',');
  }

  lemma TailOf(c: char, t: string)
    ensures ([c] + t)[1..] == t
  {
  }

  /** Each returned name is `them`, `me`, or a letter followed by the relation's number. */
  lemma ReturnNameShape(n: nat, i: nat)
    requires i < 2 + 2 * n
    ensures var x := ReturnNames(n)[i];
      && |x| >= 2 && ',' !in x
      && (i >= 2 ==> x[1..] == NatText(i / 2))
      && x[0] == (if i == 0 then 't' else if i == 1 then 'm' else if i % 2 == 0 then 'r' else 'h')
  {
    if i >= 2 {
      var j := i / 2;
      assert 1 <= j <= n;
      if i % 2 == 0 {
        assert i == 2 * j;
        assert ReturnNames(n)[i] == ['r'] + NatText(j);
        TailOf('r', NatText(j));
      } else {
        assert i == 2 * j + 1;
        assert ReturnNames(n)[i] == ['h'] + NatText(j);
        TailOf('h', NatText(j));
      }
    }
  }

  /** The returned names are pairwise different, so each column is addressable by name. */
  lemma ReturnNamesDistinct(n: nat)
    ensures Distinct(ReturnNames(n))
  {
    var names := ReturnNames(n);
    forall i, j | 0 <= i < j < |names| ensures names[i] != names[j] {
      ReturnNameShape(n, i);
      ReturnNameShape(n, j);
      if names[i] == names[j] {
        assert i >= 2 && i % 2 == j % 2;
        NatTextInjective(i / 2, j / 2);
      }
    }
  }

  /**
   * `graph`: the `me_` and `them_` placeholders are bound to the two
   * filters, unless the `where` filter has a field named `me_` followed by
   * a field of `me`.
   */
  lemma GraphBinds(collection: string, req: GraphRequest)
    requires NoPrefixClash(Fields(req.me), "me_") && NoPrefixClash(Fields(req.where), "them_")
    requires forall k :: k in Fields(req.me).values ==> "me_" + k !in Fields(req.where).values
    ensures Binds(GraphStatement(collection, req).params.bindings, Fields(req.me), "me_")
    ensures Binds(GraphStatement(collection, req).params.bindings, Fields(req.where), "them_")
  {
    var mf := Parameterize(req.me, "me_", "");
    var tf := Parameterize(req.where, "them_", "");
    FragmentBinds(req.me, "me_", "");
    FragmentBinds(req.where, "them_", "");
    OtherFragmentLacks(req.me, "me_", req.where, "them_");
    BindsLeft(mf.json, tf.json, Fields(req.me), "me_");
    BindsRight(mf.json, tf.json, Fields(req.where), "them_");
  }
}
