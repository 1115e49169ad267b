/**
 * The row decoder of `graph`: after the record itself (column 0) and the
 * starting node (column 1), a row alternates relationship lists (even
 * columns) and shortest paths (odd columns). The decoder gathers, per
 * relationship type, the properties of the relationship joining the two
 * nodes, whether it runs from the starting node to the record, and the
 * node identifiers along the last path.
 */
module GraphDecoder {
  import opened Optional
  import opened Text
  import opened OrderedMaps
  import opened JsValues
  import opened Responses

  /** `{data, hops, isMine}` under one relationship type. */
  datatype Entry = Entry(data: PropMap, hops: seq<string>, isMine: bool)

  /** `{data:{}, hops:[], isMine:false}`, the entry a type gets when first seen. */
  function Fresh(): Entry
  {
    Entry(Empty(), [], false)
  }

  /** `(row[i] || {}).self`: the URL of the node in column `i`, if it holds one. */
  function SelfOf(row: seq<Cell>, i: nat): (s: Option<string>)
    ensures s.Some? <==> i < |row| && row[i].Node?
  {
    if i < |row| && row[i].Node? then Some(row[i].self) else None
  }

  /** `rel.start == r_me.self && rel.end == r_them.self`. */
  predicate IsMyRel(rel: Rel, me: Option<string>, them: Option<string>)
  {
    Some(rel.start) == me && Some(rel.end) == them
  }

  /** `rel.start == r_them.self && rel.end == r_me.self`. */
  predicate IsTheirRel(rel: Rel, me: Option<string>, them: Option<string>)
  {
    Some(rel.start) == them && Some(rel.end) == me
  }

  /** The relationship joins the two nodes, in either direction. */
  predicate Oriented(rel: Rel, me: Option<string>, them: Option<string>)
  {
    IsMyRel(rel, me, them) || IsTheirRel(rel, me, them)
  }

  /**
   * `el.nodes.slice(1).map(node => node.substr(node.lastIndexOf('/') + 1))`:
   * the last URL segment of every node after the first.
   */
  function Hops(nodes: seq<string>): (hs: seq<string>)
    ensures |nodes| == 0 ==> hs == []
    ensures |nodes| > 0 ==> |hs| == |nodes| - 1
    ensures forall i :: 0 <= i < |hs| ==> hs[i] == LastSegment(nodes[i + 1]) && '/' !in hs[i]
  {
    if |nodes| == 0 then []
    else seq(|nodes| - 1, i requires 0 <= i < |nodes| - 1 => LastSegment(nodes[i + 1]))
  }

  // ---------------------------------------------------------------------
  // The row as a stream of events

  /** What the loop reacts to: one relationship of a list, or a truthy odd column. */
  datatype Event = RelSeen(rel: Rel) | HopSeen(cell: Cell)

  function RelEvents(rels: seq<Rel>): (evs: seq<Event>)
    ensures |evs| == |rels|
    ensures forall j :: 0 <= j < |rels| ==> evs[j] == RelSeen(rels[j])
  {
    seq(|rels|, j requires 0 <= j < |rels| => RelSeen(rels[j]))
  }

  /**
   * Column `i` seen by `if (el) { if (i % 2 == 0) ... else ... }`: a falsy
   * column is skipped; an even column contributes its relationships (a
   * column that is not a list has no `length`, so the inner loop does not
   * run); an odd column is a path step.
   */
  function SlotEvents(i: nat, c: Cell): seq<Event>
  {
    if !CellTruthy(c) then []
    else if i % 2 == 0 then (if c.Rels? then RelEvents(c.rels) else [])
    else [HopSeen(c)]
  }

  /** The events of columns 2 to `n - 1`. */
  function EventsUpTo(row: seq<Cell>, n: nat): seq<Event>
    requires n <= |row|
  {
    if n <= 2 then [] else EventsUpTo(row, n - 1) + SlotEvents(n - 1, row[n - 1])
  }

  function Events(row: seq<Cell>): seq<Event>
  {
    EventsUpTo(row, |row|)
  }

  // ---------------------------------------------------------------------
  // The loop, as a fold over the events

  /**
   * The loop's state: the graph attribute built so far and the type of
   * `rel`, the last relationship seen (the variable outlives the inner
   * loop, and the odd columns read it).
   */
  datatype Walk = Walk(attr: Obj<Entry>, last: Option<string>)

  /** The last relationship's type always has an entry. */
  predicate Anchored(w: Walk)
  {
    w.last.Some? ==> w.last.value in w.attr.values
  }

  function Start(): Walk
  {
    Walk(Empty(), None)
  }

  /**
   * One event. A relationship creates its type's entry if needed, takes
   * over the entry's data when it joins the two nodes, and marks it mine
   * when it runs from the starting node to the record. A path replaces the
   * hops of the last relationship's type; with no relationship seen yet,
   * or a column that is not a path, the property reads throw.
   */
  function Step(w: Walk, e: Event, me: Option<string>, them: Option<string>): (r: Outcome<Walk>)
    requires Anchored(w)
    ensures r.Ok? ==> Anchored(r.value)
    ensures r.TypeError? <==> e.HopSeen? && (w.last.None? || !e.cell.Path?)
    ensures forall t :: t in w.attr.values && r.Ok? ==> t in r.value.attr.values
    ensures r.Ok? ==> |w.attr.keys| <= |r.value.attr.keys| && r.value.attr.keys[..|w.attr.keys|] == w.attr.keys
  {
    match e
    case RelSeen(rel) =>
      Ok(Walk(Set(w.attr, rel.relType, RelEntry(w.attr.values, rel, me, them)), Some(rel.relType)))
    case HopSeen(c) =>
      if w.last.None? || !c.Path? then TypeError
      else Ok(Walk(Set(w.attr, w.last.value, HopEntry(w.attr.values[w.last.value], c.nodes)), w.last))
  }

  /** The entry of a relationship's type once the relationship is seen. */
  function RelEntry(attr: map<string, Entry>, rel: Rel, me: Option<string>, them: Option<string>): Entry
  {
    var prior := if rel.relType in attr then attr[rel.relType] else Fresh();
    Entry(if Oriented(rel, me, them) then rel.data else prior.data, prior.hops,
          prior.isMine || IsMyRel(rel, me, them))
  }

  /** An entry whose hops a path replaces. */
  function HopEntry(prior: Entry, nodes: seq<string>): Entry
  {
    Entry(prior.data, Hops(nodes), prior.isMine)
  }

  /** The events folded from the first to the last, stopping at the first throw. */
  function Run(evs: seq<Event>, me: Option<string>, them: Option<string>): (r: Outcome<Walk>)
    ensures r.Ok? ==> Anchored(r.value)
  {
    if |evs| == 0 then Ok(Start())
    else
      match Run(evs[..|evs| - 1], me, them)
      case TypeError => TypeError
      case Ok(w) => Step(w, evs[|evs| - 1], me, them)
  }

  /** The graph attribute of one row; `r_them` is column 0 and `r_me` column 1. */
  function DecodeRow(row: seq<Cell>): Outcome<Obj<Entry>>
  {
    match Run(Events(row), SelfOf(row, 1), SelfOf(row, 0))
    case TypeError => TypeError
    case Ok(w) => Ok(w.attr)
  }

  // ---------------------------------------------------------------------
  // Reference definitions

  /** The type of the last relationship among the events. */
  function LastType(evs: seq<Event>): Option<string>
  {
    if |evs| == 0 then None
    else if evs[|evs| - 1].RelSeen? then Some(evs[|evs| - 1].rel.relType)
    else LastType(evs[..|evs| - 1])
  }

  /** Some relationship of type `t` occurs. */
  predicate HasType(evs: seq<Event>, t: string)
  {
    exists k :: 0 <= k < |evs| && evs[k].RelSeen? && evs[k].rel.relType == t
  }

  /** Some relationship of type `t` runs from the starting node to the record. */
  predicate MineIn(evs: seq<Event>, t: string, me: Option<string>, them: Option<string>)
  {
    exists k :: 0 <= k < |evs| && evs[k].RelSeen? && evs[k].rel.relType == t && IsMyRel(evs[k].rel, me, them)
  }

  /** A path step with no relationship before it, or one that is not a path. */
  predicate Broken(evs: seq<Event>)
  {
    exists k :: 0 <= k < |evs| && BrokenAt(evs, k)
  }

  /** Event `k` is a path step with no relationship before it, or not a path. */
  predicate BrokenAt(evs: seq<Event>, k: int)
  {
    0 <= k < |evs| && evs[k].HopSeen? && (LastType(evs[..k]).None? || !evs[k].cell.Path?)
  }

  /** The properties of the last relationship of type `t` joining the two nodes; `{}` if none. */
  function DataOf(evs: seq<Event>, t: string, me: Option<string>, them: Option<string>): PropMap
  {
    if |evs| == 0 then Empty()
    else
      var e := evs[|evs| - 1];
      if e.RelSeen? && e.rel.relType == t && Oriented(e.rel, me, them) then e.rel.data
      else DataOf(evs[..|evs| - 1], t, me, them)
  }

  /** The hops of the last path that follows a relationship of type `t`; none if there is none. */
  function HopsOf(evs: seq<Event>, t: string): seq<string>
  {
    if |evs| == 0 then []
    else
      var e := evs[|evs| - 1];
      if e.HopSeen? && e.cell.Path? && LastType(evs[..|evs| - 1]) == Some(t) then Hops(e.cell.nodes)
      else HopsOf(evs[..|evs| - 1], t)
  }

  /** What the decoder promises about the events `evs`, once it has run over them. */
  ghost predicate Describes(w: Walk, evs: seq<Event>, me: Option<string>, them: Option<string>)
  {
    DescribesMap(w.attr.values, w.last, evs, me, them)
  }

  ghost predicate DescribesMap(attr: map<string, Entry>, last: Option<string>, evs: seq<Event>, me: Option<string>, them: Option<string>)
  {
    last == LastType(evs) && DescribesAttr(attr, evs, me, them)
  }

  /** One entry per relationship type seen, each as the reference definitions say. */
  ghost predicate DescribesAttr(attr: map<string, Entry>, evs: seq<Event>, me: Option<string>, them: Option<string>)
  {
    && (forall t :: t in attr <==> HasType(evs, t))
    && (forall t :: t in attr ==> attr[t] == Entry(DataOf(evs, t, me, them), HopsOf(evs, t), MineIn(evs, t, me, them)))
  }

  // ---------------------------------------------------------------------
  // The fold meets the reference definitions

  lemma PrefixFacts(evs: seq<Event>, t: string, me: Option<string>, them: Option<string>)
    requires |evs| > 0
    ensures var front, e := evs[..|evs| - 1], evs[|evs| - 1];
      && (HasType(evs, t) <==> HasType(front, t) || (e.RelSeen? && e.rel.relType == t))
      && (MineIn(evs, t, me, them) <==> MineIn(front, t, me, them) || (e.RelSeen? && e.rel.relType == t && IsMyRel(e.rel, me, them)))
  {
    var front := evs[..|evs| - 1];
    assert forall k :: 0 <= k < |front| ==> front[k] == evs[k];
  }

  lemma BrokenPrefix(evs: seq<Event>)
    requires |evs| > 0
    ensures var front, e := evs[..|evs| - 1], evs[|evs| - 1];
      Broken(evs) <==> Broken(front) || (e.HopSeen? && (LastType(front).None? || !e.cell.Path?))
  {
    var front := evs[..|evs| - 1];
    var n := |evs| - 1;
    assert evs[..n] == front;
    forall k ensures BrokenAt(front, k) <==> BrokenAt(evs, k) && k < n {
      if 0 <= k < n {
        assert front[k] == evs[k] && front[..k] == evs[..k];
      }
    }
    if Broken(evs) {
      var k :| BrokenAt(evs, k);
      assert k == n || BrokenAt(front, k);
    }
    assert BrokenAt(evs, n) <==> evs[n].HopSeen? && (LastType(front).None? || !evs[n].cell.Path?);
  }

  /** The reference definitions after one more relationship. */
  lemma RelUnfold(evs: seq<Event>, rel: Rel, t: string, me: Option<string>, them: Option<string>)
    ensures var all := evs + [RelSeen(rel)];
      && LastType(all) == Some(rel.relType)
      && (HasType(all, t) <==> HasType(evs, t) || t == rel.relType)
      && (MineIn(all, t, me, them) <==> MineIn(evs, t, me, them) || (t == rel.relType && IsMyRel(rel, me, them)))
      && DataOf(all, t, me, them) == (if t == rel.relType && Oriented(rel, me, them) then rel.data else DataOf(evs, t, me, them))
      && HopsOf(all, t) == HopsOf(evs, t)
  {
    var all := evs + [RelSeen(rel)];
    assert all[..|all| - 1] == evs;
    PrefixFacts(all, t, me, them);
  }

  /** The reference definitions after one more path. */
  lemma HopUnfold(evs: seq<Event>, c: Cell, t: string, me: Option<string>, them: Option<string>)
    requires c.Path?
    ensures var all := evs + [HopSeen(c)];
      && LastType(all) == LastType(evs)
      && (HasType(all, t) <==> HasType(evs, t))
      && (MineIn(all, t, me, them) <==> MineIn(evs, t, me, them))
      && DataOf(all, t, me, them) == DataOf(evs, t, me, them)
      && HopsOf(all, t) == (if LastType(evs) == Some(t) then Hops(c.nodes) else HopsOf(evs, t))
  {
    var all := evs + [HopSeen(c)];
    assert all[..|all| - 1] == evs;
    PrefixFacts(all, t, me, them);
  }

  /** The describing facts carry over one relationship event. */
  lemma RelStep(w: Walk, evs: seq<Event>, rel: Rel, me: Option<string>, them: Option<string>)
    requires Anchored(w) && Describes(w, evs, me, them)
    ensures Step(w, RelSeen(rel), me, them).Ok?
    ensures Describes(Step(w, RelSeen(rel), me, them).value, evs + [RelSeen(rel)], me, them)
  {
    RelStepMap(w.attr.values, w.last, evs, rel, me, them);
  }

  lemma RelStepMap(attr: map<string, Entry>, last: Option<string>, evs: seq<Event>, rel: Rel, me: Option<string>, them: Option<string>)
    requires DescribesMap(attr, last, evs, me, them)
    ensures DescribesMap(attr[rel.relType := RelEntry(attr, rel, me, them)], Some(rel.relType), evs + [RelSeen(rel)], me, them)
  {
    var all := evs + [RelSeen(rel)];
    var attr2 := attr[rel.relType := RelEntry(attr, rel, me, them)];
    RelUnfold(evs, rel, rel.relType, me, them);
    forall t ensures t in attr2 <==> HasType(all, t) {
      RelUnfold(evs, rel, t, me, them);
    }
    forall t | t in attr2
      ensures attr2[t] == Entry(DataOf(all, t, me, them), HopsOf(all, t), MineIn(all, t, me, them))
    {
      RelUnfold(evs, rel, t, me, them);
      if t !in attr {
        Untyped(evs, t, me, them);
      }
    }
  }

  /** The last relationship's type is a type that occurs. */
  lemma {:induction false} LastTypeOccurs(evs: seq<Event>)
    ensures LastType(evs).Some? ==> HasType(evs, LastType(evs).value)
  {
    if |evs| > 0 && !evs[|evs| - 1].RelSeen? {
      var front := evs[..|evs| - 1];
      LastTypeOccurs(front);
      assert forall k :: 0 <= k < |front| ==> front[k] == evs[k];
    }
  }

  /** A type that never occurs has no data and no hops. */
  lemma {:induction false} Untyped(evs: seq<Event>, t: string, me: Option<string>, them: Option<string>)
    requires !HasType(evs, t)
    ensures DataOf(evs, t, me, them) == Empty() && HopsOf(evs, t) == []
  {
    if |evs| > 0 {
      var front := evs[..|evs| - 1];
      assert forall k :: 0 <= k < |front| ==> front[k] == evs[k];
      Untyped(front, t, me, them);
      LastTypeOccurs(front);
    }
  }

  /** The describing facts carry over one path event that does not throw. */
  lemma HopStep(w: Walk, evs: seq<Event>, c: Cell, me: Option<string>, them: Option<string>)
    requires Anchored(w) && Describes(w, evs, me, them)
    requires w.last.Some? && c.Path?
    ensures Step(w, HopSeen(c), me, them).Ok?
    ensures Describes(Step(w, HopSeen(c), me, them).value, evs + [HopSeen(c)], me, them)
  {
    HopStepMap(w.attr.values, w.last.value, evs, c, me, them);
  }

  lemma HopStepMap(attr: map<string, Entry>, last: string, evs: seq<Event>, c: Cell, me: Option<string>, them: Option<string>)
    requires DescribesMap(attr, Some(last), evs, me, them) && last in attr && c.Path?
    ensures DescribesMap(attr[last := HopEntry(attr[last], c.nodes)], Some(last), evs + [HopSeen(c)], me, them)
  {
    var all := evs + [HopSeen(c)];
    var attr2 := attr[last := HopEntry(attr[last], c.nodes)];
    HopUnfold(evs, c, last, me, them);
    forall t ensures t in attr2 <==> HasType(all, t) {
      HopUnfold(evs, c, t, me, them);
    }
    forall t | t in attr2
      ensures attr2[t] == Entry(DataOf(all, t, me, them), HopsOf(all, t), MineIn(all, t, me, them))
    {
      HopUnfold(evs, c, t, me, them);
    }
  }

  /**
   * The decoder throws exactly when some path step has no relationship
   * before it or is not a path; otherwise its result is the reference
   * description: one entry per relationship type seen, holding the data
   * of the last relationship joining the two nodes, the hops of the last
   * path after a relationship of that type, and whether any relationship
   * of that type runs from the starting node to the record.
   */
  lemma {:induction false} RunDescribes(evs: seq<Event>, me: Option<string>, them: Option<string>)
    ensures Run(evs, me, them).Ok? <==> !Broken(evs)
    ensures Run(evs, me, them).Ok? ==> Describes(Run(evs, me, them).value, evs, me, them)
  {
    if |evs| > 0 {
      var front, e := evs[..|evs| - 1], evs[|evs| - 1];
      RunDescribes(front, me, them);
      BrokenPrefix(evs);
      assert front + [e] == evs;
      if Run(front, me, them).Ok? {
        var w := Run(front, me, them).value;
        if e.RelSeen? {
          RelStep(w, front, e.rel, me, them);
        } else if w.last.Some? && e.cell.Path? {
          HopStep(w, front, e.cell, me, them);
        }
      }
    }
  }

  // ---------------------------------------------------------------------
  // The two loops of the source

  lemma SlotStep(row: seq<Cell>, i: nat)
    requires 2 <= i < |row|
    ensures EventsUpTo(row, i + 1) == EventsUpTo(row, i) + SlotEvents(i, row[i])
  {
  }

  /** The events of the first columns are a prefix of the events of more columns. */
  lemma {:induction false} EventsPrefix(row: seq<Cell>, m: nat, n: nat)
    requires m <= n <= |row|
    ensures |EventsUpTo(row, m)| <= |EventsUpTo(row, n)|
    ensures EventsUpTo(row, n)[..|EventsUpTo(row, m)|] == EventsUpTo(row, m)
    decreases n - m
  {
    if m < n {
      EventsPrefix(row, m, n - 1);
      if n > 2 {
        assert EventsUpTo(row, n) == EventsUpTo(row, n - 1) + SlotEvents(n - 1, row[n - 1]);
      }
    }
  }

  /** A broken stream stays broken whatever follows. */
  lemma BrokenGrows(a: seq<Event>, b: seq<Event>)
    requires Broken(a) && |a| <= |b| && b[..|a|] == a
    ensures Broken(b)
  {
    var k :| 0 <= k < |a| && BrokenAt(a, k);
    assert b[k] == a[k] && b[..k] == a[..k];
    assert BrokenAt(b, k);
  }

  /** The stream so far, with the relationships of a list up to `j`. */
  lemma RelPrefix(before: seq<Event>, rels: seq<Rel>, j: nat)
    requires j < |rels|
    ensures before + RelEvents(rels[..j + 1]) == (before + RelEvents(rels[..j])) + [RelSeen(rels[j])]
  {
    assert RelEvents(rels[..j + 1]) == RelEvents(rels[..j]) + [RelSeen(rels[j])];
  }

  /** The loop's state after the events `evs`: unbroken so far and described by them. */
  ghost predicate Sound(w: Walk, evs: seq<Event>, me: Option<string>, them: Option<string>)
  {
    Anchored(w) && !Broken(evs) && Describes(w, evs, me, them)
  }

  /** A relationship keeps the state sound. */
  lemma SoundRel(w: Walk, evs: seq<Event>, rel: Rel, me: Option<string>, them: Option<string>)
    requires Sound(w, evs, me, them)
    ensures Step(w, RelSeen(rel), me, them).Ok?
    ensures Sound(Step(w, RelSeen(rel), me, them).value, evs + [RelSeen(rel)], me, them)
  {
    RelStep(w, evs, rel, me, them);
    var all := evs + [RelSeen(rel)];
    assert all[..|all| - 1] == evs;
    BrokenPrefix(all);
  }

  /** A path after a relationship keeps the state sound; anything else breaks the stream. */
  lemma SoundHop(w: Walk, evs: seq<Event>, c: Cell, me: Option<string>, them: Option<string>)
    requires Sound(w, evs, me, them)
    ensures w.last.Some? && c.Path? ==> (Step(w, HopSeen(c), me, them).Ok? &&
      Sound(Step(w, HopSeen(c), me, them).value, evs + [HopSeen(c)], me, them))
    ensures w.last.None? || !c.Path? ==> Broken(evs + [HopSeen(c)])
  {
    var all := evs + [HopSeen(c)];
    assert all[..|all| - 1] == evs;
    BrokenPrefix(all);
    if w.last.Some? && c.Path? {
      HopStep(w, evs, c, me, them);
    }
  }

  lemma SoundSame(w: Walk, a: seq<Event>, b: seq<Event>, me: Option<string>, them: Option<string>)
    requires Sound(w, a, me, them) && a == b
    ensures Sound(w, b, me, them)
  {
  }

  /**
   * `for (var j=0; j<el.length; j++) { var rel = el[j]; ... }`: the
   * relationships of one list, in order.
   */
  method DecodeRels(w0: Walk, before: seq<Event>, rels: seq<Rel>, me: Option<string>, them: Option<string>) returns (w: Walk)
    requires Sound(w0, before, me, them)
    ensures Sound(w, before + RelEvents(rels), me, them)
  {
    w := w0;
    var j := 0;
    assert before + RelEvents(rels[..0]) == before;
    while j < |rels|
      invariant 0 <= j <= |rels|
      invariant Sound(w, before + RelEvents(rels[..j]), me, them)
    {
      RelPrefix(before, rels, j);
      SoundRel(w, before + RelEvents(rels[..j]), rels[j], me, them);
      w := Step(w, RelSeen(rels[j]), me, them).value;
      j := j + 1;
    }
    assert rels[..|rels|] == rels;
  }

  /**
   * One column of the row: a relationship list in an even column, a path
   * in an odd one; anything falsy is skipped.
   */
  method DecodeColumn(w: Walk, row: seq<Cell>, i: nat) returns (r: Outcome<Walk>)
    requires 2 <= i < |row|
    requires Sound(w, EventsUpTo(row, i), SelfOf(row, 1), SelfOf(row, 0))
    ensures r.TypeError? <==> Broken(EventsUpTo(row, i + 1))
    ensures r.Ok? ==> Sound(r.value, EventsUpTo(row, i + 1), SelfOf(row, 1), SelfOf(row, 0))
  {
    var me, them := SelfOf(row, 1), SelfOf(row, 0);
    var el := row[i];
    var before := EventsUpTo(row, i);
    SlotStep(row, i);
    if CellTruthy(el) && i % 2 == 0 && el.Rels? {
      var w' := DecodeRels(w, before, el.rels, me, them);
      SoundSame(w', before + RelEvents(el.rels), EventsUpTo(row, i + 1), me, them);
      return Ok(w');
    } else if CellTruthy(el) && i % 2 == 1 {
      SoundHop(w, before, el, me, them);
      if w.last.None? || !el.Path? {
        return TypeError;
      }
      var w' := Step(w, HopSeen(el), me, them).value;
      SoundSame(w', before + [HopSeen(el)], EventsUpTo(row, i + 1), me, them);
      return Ok(w');
    } else {
      SoundSame(w, before, EventsUpTo(row, i + 1), me, them);
      return Ok(w);
    }
  }

  /**
   * `for (var i=2; i<data.length; i++) { var el = data[i]; if (el) { ... } }`
   * with the inner loop over a relationship list. It throws exactly when a
   * truthy odd column comes before any relationship or is not a path, and
   * otherwise yields the entries the reference description gives.
   */
  method DecodeColumns(row: seq<Cell>) returns (r: Outcome<Obj<Entry>>)
    ensures r.TypeError? <==> Broken(Events(row))
    ensures r.Ok? ==> DescribesAttr(r.value.values, Events(row), SelfOf(row, 1), SelfOf(row, 0))
  {
    var me, them := SelfOf(row, 1), SelfOf(row, 0);
    var start := if |row| < 2 then |row| else 2;
    SoundStart(row, start, me, them);
    var walked := DecodeFrom(Start(), row, start);
    if walked.TypeError? {
      return TypeError;
    }
    SoundDone(walked.value, row, me, them);
    return Ok(walked.value.attr);
  }

  /** The loop over the columns from `i` on, from a state sound for the columns before. */
  method DecodeFrom(w0: Walk, row: seq<Cell>, i0: nat) returns (r: Outcome<Walk>)
    requires i0 <= |row| && (2 <= i0 || i0 == |row|)
    requires Sound(w0, EventsUpTo(row, i0), SelfOf(row, 1), SelfOf(row, 0))
    ensures r.TypeError? <==> Broken(Events(row))
    ensures r.Ok? ==> Sound(r.value, EventsUpTo(row, |row|), SelfOf(row, 1), SelfOf(row, 0))
  {
    var w, i := w0, i0;
    while i < |row|
      invariant i <= |row| && (2 <= i || i == |row|)
      invariant Sound(w, EventsUpTo(row, i), SelfOf(row, 1), SelfOf(row, 0))
    {
      var next := DecodeColumn(w, row, i);
      if next.TypeError? {
        BrokenRow(row, i + 1);
        return TypeError;
      }
      w := next.value;
      i := i + 1;
    }
    return Ok(w);
  }

  /** Before any column is read the state describes no events. */
  lemma SoundStart(row: seq<Cell>, n: nat, me: Option<string>, them: Option<string>)
    requires n <= 2 && n <= |row|
    ensures Sound(Start(), EventsUpTo(row, n), me, them)
  {
    assert EventsUpTo(row, n) == [];
    assert LastType([]) == None;
  }

  /** A sound state after the last column describes the whole row. */
  lemma SoundDone(w: Walk, row: seq<Cell>, me: Option<string>, them: Option<string>)
    requires Sound(w, EventsUpTo(row, |row|), me, them)
    ensures !Broken(Events(row)) && DescribesAttr(w.attr.values, Events(row), me, them)
  {
  }

  /** A row whose first columns already throw throws as a whole. */
  lemma BrokenRow(row: seq<Cell>, n: nat)
    requires n <= |row| && Broken(EventsUpTo(row, n))
    ensures Broken(Events(row))
  {
    EventsPrefix(row, n, |row|);
    BrokenGrows(EventsUpTo(row, n), Events(row));
  }

  // ---------------------------------------------------------------------
  // Consequences

  /**
   * Decoding a row: it throws exactly when a truthy odd column comes before
   * any relationship or is not a path; otherwise every relationship type
   * seen has an entry as the reference description says.
   */
  lemma DecodeRowSpec(row: seq<Cell>)
    ensures DecodeRow(row).Ok? <==> !Broken(Events(row))
    ensures DecodeRow(row).Ok? ==> forall t :: t in DecodeRow(row).value.values <==> HasType(Events(row), t)
    ensures DecodeRow(row).Ok? ==> forall t :: t in DecodeRow(row).value.values ==>
      var me, them := SelfOf(row, 1), SelfOf(row, 0);
      DecodeRow(row).value.values[t] == Entry(DataOf(Events(row), t, me, them), HopsOf(Events(row), t), MineIn(Events(row), t, me, them))
  {
    RunDescribes(Events(row), SelfOf(row, 1), SelfOf(row, 0));
  }

  /** Once an entry is mine, later events never clear the flag. */
  lemma MineSticks(evs: seq<Event>, more: seq<Event>, t: string, me: Option<string>, them: Option<string>)
    requires Run(evs, me, them).Ok? && Run(evs + more, me, them).Ok?
    requires t in Run(evs, me, them).value.attr.values && Run(evs, me, them).value.attr.values[t].isMine
    ensures t in Run(evs + more, me, them).value.attr.values && Run(evs + more, me, them).value.attr.values[t].isMine
  {
    RunDescribes(evs, me, them);
    RunDescribes(evs + more, me, them);
    var k :| 0 <= k < |evs| && evs[k].RelSeen? && evs[k].rel.relType == t && IsMyRel(evs[k].rel, me, them);
    assert (evs + more)[k] == evs[k];
  }

  /** A type whose relationships never join the two nodes keeps the fresh entry's data and flag. */
  lemma UnjoinedStaysFresh(evs: seq<Event>, t: string, me: Option<string>, them: Option<string>)
    requires Run(evs, me, them).Ok? && t in Run(evs, me, them).value.attr.values
    requires forall k :: 0 <= k < |evs| && evs[k].RelSeen? && evs[k].rel.relType == t ==> !Oriented(evs[k].rel, me, them)
    ensures Run(evs, me, them).value.attr.values[t].data == Empty()
    ensures !Run(evs, me, them).value.attr.values[t].isMine
  {
    RunDescribes(evs, me, them);
    Unjoined(evs, t, me, them);
  }

  lemma {:induction false} Unjoined(evs: seq<Event>, t: string, me: Option<string>, them: Option<string>)
    requires forall k :: 0 <= k < |evs| && evs[k].RelSeen? && evs[k].rel.relType == t ==> !Oriented(evs[k].rel, me, them)
    ensures DataOf(evs, t, me, them) == Empty()
  {
    if |evs| > 0 {
      var front := evs[..|evs| - 1];
      assert forall k :: 0 <= k < |front| ==> front[k] == evs[k];
      Unjoined(front, t, me, them);
    }
  }

  // ---------------------------------------------------------------------
  // The reply of `graph`

  /** A graph result: the hydrated record and, beside it, its row's graph attribute. */
  datatype GraphRecord = GraphRecord(fields: PropMap, graph: Obj<Entry>)

  /** No row makes the decoder throw. */
  predicate AllDecode(rows: seq<seq<Cell>>)
  {
    forall i :: 0 <= i < |rows| ==> DecodeRow(rows[i]).Ok?
  }

  /**
   * `hydrate(collection, body).map(function(model, index) ...)`: record `i`
   * comes with the graph attribute decoded from row `i`.
   */
  function GraphRecords(rows: seq<seq<Cell>>): (gs: seq<GraphRecord>)
    requires AllNodes(rows) && AllDecode(rows)
    ensures |gs| == |rows|
    ensures forall i :: 0 <= i < |rows| ==> gs[i].fields == Records(rows)[i]
  {
    seq(|rows|, i requires 0 <= i < |rows| && AllNodes(rows) && AllDecode(rows) =>
      GraphRecord(StripGeometry(rows[i][0].data), DecodeRow(rows[i]).value))
  }

  /**
   * The callback of `graph`: the guards, then `hydrate`, then the decoder
   * on every row; either of the last two throwing makes the callback throw.
   */
  function GraphReply(resp: Response): (r: Reply<seq<GraphRecord>>)
    ensures r.Failure? <==> Rejected(resp)
    ensures r.Completed? && r.result.Some? <==> Passes(resp) && AllNodes(RowsOf(resp)) && AllDecode(RowsOf(resp))
    ensures r.Completed? && r.result.Some? ==> |r.result.value| == |RowsOf(resp)|
    ensures r == Thrown <==> resp.err.None? && (resp.body.None? || (Passes(resp) && !(AllNodes(RowsOf(resp)) && AllDecode(RowsOf(resp)))))
  {
    match Classify(resp)
    case Some(early) => early
    case None =>
      match Hydrate(resp.body.value)
      case TypeError => Thrown
      case Ok(_) =>
        var rows := RowsOf(resp);
        if AllDecode(rows) then Completed(Some(GraphRecords(rows))) else Thrown
  }

  /**
   * Every graph result carries its row's record and a graph attribute with
   * one entry per relationship type in the row, each as the reference
   * definitions describe it.
   */
  lemma GraphReplyRows(resp: Response, i: nat)
    requires GraphReply(resp).Completed? && GraphReply(resp).result.Some?
    requires i < |GraphReply(resp).result.value|
    ensures var row, g := RowsOf(resp)[i], GraphReply(resp).result.value[i];
      && |row| > 0 && row[0].Node?
      && g.fields == StripGeometry(row[0].data)
      && !Broken(Events(row))
      && DescribesAttr(g.graph.values, Events(row), SelfOf(row, 1), SelfOf(row, 0))
  {
    var rows := RowsOf(resp);
    var row := rows[i];
    RunDescribes(Events(row), SelfOf(row, 1), SelfOf(row, 0));
    assert GraphReply(resp).result.value == GraphRecords(rows);
  }

  /** One row whose decoding throws makes the whole callback throw. */
  lemma GraphReplyThrows(resp: Response, i: nat)
    requires Passes(resp) && i < |RowsOf(resp)| && Broken(Events(RowsOf(resp)[i]))
    ensures GraphReply(resp) == Thrown
  {
    var row := RowsOf(resp)[i];
    RunDescribes(Events(row), SelfOf(row, 1), SelfOf(row, 0));
  }

  /**
   * A row with one relationship from the starting node to the record and
   * the path along it: the type gets the relationship's properties, is
   * mine, and its hops name the record's node.
   */
  lemma DecodeExample(d: PropMap)
    ensures var row := ExampleRow(d);
      && DecodeRow(row).Ok?
      && DecodeRow(row).value.values.Keys == {"FRIEND"}
      && DecodeRow(row).value.values["FRIEND"] == Entry(d, ["2"], true)
  {
    var row := ExampleRow(d);
    ExampleEvents(d);
    ExampleReference(d);
    DecodeRowSpec(row);
    var attr := DecodeRow(row).value.values;
    assert "FRIEND" in attr;
    assert attr.Keys == {"FRIEND"};
  }

  function ExampleRel(d: PropMap): Rel
  {
    Rel("node/1", "node/2", "FRIEND", d)
  }

  /** The record `node/2`, the starting node `node/1`, their relationship and the path. */
  function ExampleRow(d: PropMap): seq<Cell>
  {
    [Node("node/2", Empty()), Node("node/1", Empty()), Rels([ExampleRel(d)]), Path(["node/1", "node/2"])]
  }

  lemma ExampleEvents(d: PropMap)
    ensures SelfOf(ExampleRow(d), 1) == Some("node/1") && SelfOf(ExampleRow(d), 0) == Some("node/2")
    ensures Events(ExampleRow(d)) == [RelSeen(ExampleRel(d)), HopSeen(Path(["node/1", "node/2"]))]
  {
    var row := ExampleRow(d);
    assert RelEvents([ExampleRel(d)]) == [RelSeen(ExampleRel(d))];
    assert EventsUpTo(row, 3) == [RelSeen(ExampleRel(d))];
  }

  lemma ExampleReference(d: PropMap)
    ensures var evs, me, them := [RelSeen(ExampleRel(d)), HopSeen(Path(["node/1", "node/2"]))], Some("node/1"), Some("node/2");
      && !Broken(evs)
      && (forall t :: HasType(evs, t) <==> t == "FRIEND")
      && DataOf(evs, "FRIEND", me, them) == d
      && HopsOf(evs, "FRIEND") == ["2"]
      && MineIn(evs, "FRIEND", me, them)
  {
    var rel := ExampleRel(d);
    var evs, me, them := [RelSeen(rel), HopSeen(Path(["node/1", "node/2"]))], Some("node/1"), Some("node/2");
    assert evs[..1] == [RelSeen(rel)];
    assert LastType(evs[..1]) == Some("FRIEND");
    assert !Broken(evs) by {
      forall k | 0 <= k < |evs|
        ensures !BrokenAt(evs, k)
      {
        assert k == 0 || evs[..k] == [RelSeen(rel)];
      }
    }
    assert HasType(evs, "FRIEND") by {
      assert evs[0].RelSeen? && evs[0].rel.relType == "FRIEND";
    }
    forall t | HasType(evs, t)
      ensures t == "FRIEND"
    {
      var k :| 0 <= k < |evs| && evs[k].RelSeen? && evs[k].rel.relType == t;
      assert k == 0;
    }
    assert MineIn(evs, "FRIEND", me, them) by {
      assert IsMyRel(evs[0].rel, me, them);
    }
    assert DataOf(evs, "FRIEND", me, them) == DataOf(evs[..1], "FRIEND", me, them);
    ExampleHops();
  }

  lemma ExampleHops()
    ensures Hops(["node/1", "node/2"]) == ["2"]
  {
    assert LastSegment("node/2") == "2";
  }

  /** A worked example: the hops of a path are the identifiers after the first node. */
  lemma HopsExample()
    ensures Hops(["node/5", "node/9", "node/2"]) == ["9", "2"]
  {
    assert LastSegment("node/9") == "9";
    assert LastSegment("node/2") == "2";
  }
}
