/**
 * What the adapter makes of the Cypher endpoint's answer: the error
 * checks every operation's callback starts with, `hydrate`, and the
 * per-operation results built from the hydrated rows.
 */
module Responses {
  import opened Optional
  import opened OrderedMaps
  import opened JsValues

  /** A relationship as the endpoint serializes it. */
  datatype Rel = Rel(start: string, end: string, relType: string, data: PropMap)

  /** One column of a result row. */
  datatype Cell =
    | Missing                          // JSON null
    | Scalar(v: Value)                 // a number, string or boolean
    | Node(self: string, data: PropMap) // a node: its URL and its properties
    | Rels(rels: seq<Rel>)             // a list of relationships
    | Path(nodes: seq<string>)         // a path: the URLs of its nodes

  /** `if (el)` on a column. */
  predicate CellTruthy(c: Cell)
  {
    match c
    case Missing => false
    case Scalar(v) => Truthy(v)
    case _ => true
  }

  /** The endpoint's `cause`, carrying the server's exception name when it has one. */
  datatype Cause = Cause(exception: Option<string>)

  /** The response body: the result rows and the error cause, each possibly absent. */
  datatype Body = Body(data: Option<seq<seq<Cell>>>, cause: Option<Cause>)

  /** What the HTTP client hands the callback: a transport error and the parsed body. */
  datatype Response = Response(err: Option<string>, body: Option<Body>)

  /**
   * What reaches the operation's callback: `cb(error)`, an exception thrown
   * while reading the body (a property read on `undefined`), or
   * `cb(null, result)` / `cb()`, with `None` for an undefined result.
   */
  datatype Reply<T> = Failure(message: string) | Thrown | Completed(result: Option<T>)

  /** A computation that either yields a value or throws a TypeError. */
  datatype Outcome<T> = Ok(value: T) | TypeError

  /**
   * The two guards every callback opens with: `if (err) return cb(err)`
   * and `if (body.cause) return cb(body.cause.exception)`. `None` means the
   * callback goes on to read the data. A missing body makes the second
   * guard throw; a cause without an exception name calls back with
   * `undefined`, which reads as a completion without a result.
   */
  function Classify<T>(resp: Response): (r: Option<Reply<T>>)
    ensures resp.err.Some? ==> r == Some(Failure(resp.err.value))
    ensures resp.err.None? && resp.body.None? ==> r == Some(Thrown)
    ensures resp.err.None? && resp.body.Some? && resp.body.value.cause.Some? ==>
      r == Some(match resp.body.value.cause.value.exception
                case Some(e) => Failure(e)
                case None => Completed(None))
    ensures r.None? <==> resp.err.None? && resp.body.Some? && resp.body.value.cause.None?
  {
    if resp.err.Some? then Some(Failure(resp.err.value))
    else if resp.body.None? then Some(Thrown)
    else match resp.body.value.cause
      case Some(c) => Some(if c.exception.Some? then Failure(c.exception.value) else Completed(None))
      case None => None
  }

  /** `delete data.bbox; delete data.gtype`. */
  function StripGeometry(data: PropMap): (r: PropMap)
    ensures "bbox" !in r.values && "gtype" !in r.values
    ensures forall k :: k != "bbox" && k != "gtype" ==> Lookup(r, k) == Lookup(data, k)
    ensures forall k :: k in r.keys ==> k in data.keys
  {
    Remove(Remove(data, "bbox"), "gtype")
  }

  /** Every row starts with a node, so reading `el[0].data` never throws. */
  predicate AllNodes(rows: seq<seq<Cell>>)
  {
    forall i :: 0 <= i < |rows| ==> |rows[i]| > 0 && rows[i][0].Node?
  }

  /** The record of each row, in row order. */
  function Records(rows: seq<seq<Cell>>): (rs: seq<PropMap>)
    requires AllNodes(rows)
    ensures |rs| == |rows|
    ensures forall i :: 0 <= i < |rows| ==> rs[i] == StripGeometry(rows[i][0].data)
  {
    seq(|rows|, i requires 0 <= i < |rows| && AllNodes(rows) => StripGeometry(rows[i][0].data))
  }

  /** `body.data.map(...)`, which throws as soon as one row lacks a node. */
  function HydrateRows(rows: seq<seq<Cell>>): Outcome<seq<PropMap>>
  {
    if AllNodes(rows) then Ok(Records(rows)) else TypeError
  }

  /**
   * `hydrate(collection, body)`: no rows without data; otherwise each row's
   * first column, a node, gives a record without its geometry fields. A
   * row whose first column is not a node makes `hydrate` throw.
   */
  function Hydrate(body: Body): (r: Outcome<seq<PropMap>>)
    ensures body.data.None? ==> r == Ok([])
    ensures r.Ok? <==> body.data.None? || AllNodes(body.data.value)
    ensures r.Ok? && body.data.Some? ==> |r.value| == |body.data.value|
    ensures r.Ok? && body.data.Some? ==> forall i :: 0 <= i < |r.value| ==>
      |body.data.value[i]| > 0 && body.data.value[i][0].Node? && r.value[i] == StripGeometry(body.data.value[i][0].data)
  {
    if body.data.None? then Ok([]) else HydrateRows(body.data.value)
  }

  /** The guards let the callback read the data: no transport error, a body, no cause. */
  predicate Passes(resp: Response)
  {
    resp.err.None? && resp.body.Some? && resp.body.value.cause.None?
  }

  /** The callback is handed an error: the transport's, or the server's exception name. */
  predicate Rejected(resp: Response)
  {
    || resp.err.Some?
    || (resp.body.Some? && resp.body.value.cause.Some? && resp.body.value.cause.value.exception.Some?)
  }

  /** The rows of a body that passed the guards; none when `data` is absent. */
  function RowsOf(resp: Response): seq<seq<Cell>>
    requires resp.body.Some?
  {
    resp.body.value.data.GetOr([])
  }

  /** `find` (and `nearby`, without its distance attribute): the hydrated records. */
  function RecordsReply(resp: Response): (r: Reply<seq<PropMap>>)
    ensures r.Failure? <==> Rejected(resp)
    ensures r.Completed? && r.result.Some? <==> Passes(resp) && AllNodes(RowsOf(resp))
    ensures r.Completed? && r.result.Some? ==> r.result.value == Records(RowsOf(resp))
    ensures r == Thrown <==> resp.err.None? && (resp.body.None? || (Passes(resp) && !AllNodes(RowsOf(resp))))
  {
    match Classify(resp)
    case Some(early) => early
    case None =>
      match Hydrate(resp.body.value)
      case Ok(records) => Completed(Some(records))
      case TypeError => Thrown
  }

  /**
   * `create` and `update` on a connection without geometry: the first
   * hydrated record, `undefined` when no row came back. After hydrating,
   * the callback reads `connection.extensions.SpatialPlugin.addNodeToLayer`
   * whatever the connection; `spatialPlugin` says whether the server
   * advertised that plugin, and without it the read throws although the
   * node has been written.
   */
  function FirstRecordReply(resp: Response, spatialPlugin: bool): (r: Reply<PropMap>)
    ensures r.Failure? <==> Rejected(resp)
    ensures r.Completed? && r.result.Some? <==> Passes(resp) && AllNodes(RowsOf(resp)) && |RowsOf(resp)| > 0 && spatialPlugin
    ensures r.Completed? && r.result.Some? ==> r.result.value == StripGeometry(RowsOf(resp)[0][0].data)
    ensures r == Thrown <==> resp.err.None? && (resp.body.None? || (Passes(resp) && (!AllNodes(RowsOf(resp)) || !spatialPlugin)))
  {
    match Classify(resp)
    case Some(early) => early
    case None =>
      match Hydrate(resp.body.value)
      case Ok(records) =>
        if !spatialPlugin then Thrown
        else Completed(if |records| > 0 then Some(records[0]) else None)
      case TypeError => Thrown
  }

  /** `destroy`: `cb(null, {})` once the guards pass. */
  function DestroyReply(resp: Response): (r: Reply<PropMap>)
    ensures r.Failure? <==> Rejected(resp)
    ensures r == Completed(Some(Empty())) <==> Passes(resp)
    ensures r == Thrown <==> resp.err.None? && resp.body.None?
  {
    match Classify(resp)
    case Some(early) => early
    case None => Completed(Some(Empty()))
  }

  /** `link` and `unlink`: a bare `cb()` once the guards pass. */
  function AckReply(resp: Response): (r: Reply<PropMap>)
    ensures r.Failure? <==> Rejected(resp)
    ensures r == Completed(None) <==> !Rejected(resp) && resp.body.Some?
    ensures r == Thrown <==> resp.err.None? && resp.body.None?
  {
    match Classify(resp)
    case Some(early) => early
    case None => Completed(None)
  }

  /**
   * `count`: `body.data[0][0]`. Reading it throws when there is no data or
   * no first row; an empty first row gives `undefined`.
   */
  function CountReply(resp: Response): (r: Reply<Cell>)
    ensures r.Failure? <==> Rejected(resp)
    ensures r.Completed? && r.result.Some? <==> Passes(resp) && |RowsOf(resp)| > 0 && |RowsOf(resp)[0]| > 0
    ensures r.Completed? && r.result.Some? ==> r.result.value == RowsOf(resp)[0][0]
    ensures r == Thrown <==> resp.err.None? && (resp.body.None? || (Passes(resp) && |RowsOf(resp)| == 0))
  {
    match Classify(resp)
    case Some(early) => early
    case None =>
      var data := resp.body.value.data;
      if data.None? || |data.value| == 0 then Thrown
      else if |data.value[0]| == 0 then Completed(None)
      else Completed(Some(data.value[0][0]))
  }

  // ---------------------------------------------------------------------
  // Properties of the guards and of hydrate

  /**
   * A transport error is reported as is, whatever the body says and
   * whatever the server's plugins (a corollary of the replies' contracts,
   * spelled out for every operation at once).
   */
  lemma TransportErrorFirst(e: string, body: Option<Body>, spatialPlugin: bool)
    ensures RecordsReply(Response(Some(e), body)) == Failure(e)
    ensures FirstRecordReply(Response(Some(e), body), spatialPlugin) == Failure(e)
    ensures DestroyReply(Response(Some(e), body)) == Failure(e)
    ensures AckReply(Response(Some(e), body)) == Failure(e)
    ensures CountReply(Response(Some(e), body)) == Failure(e)
  {
  }

  /** A cause wins over any data that came with it (a corollary of `RecordsReply`'s contract). */
  lemma CauseBeforeData(body: Body)
    requires body.cause.Some?
    ensures var r := RecordsReply(Response(None, Some(body)));
      && (body.cause.value.exception.Some? <==> r.Failure?)
      && (body.cause.value.exception.Some? ==> r == Failure(body.cause.value.exception.value))
      && (body.cause.value.exception.None? <==> r == Completed(None))
  {
  }

  /** A record never carries the geometry fields, and keeps every other field. */
  lemma HydratedRecords(body: Body, i: nat)
    requires Hydrate(body).Ok? && body.data.Some? && i < |body.data.value|
    ensures |body.data.value[i]| > 0 && body.data.value[i][0].Node?
    ensures |Hydrate(body).value| == |body.data.value|
    ensures var rec := Hydrate(body).value[i];
      && "bbox" !in rec.values && "gtype" !in rec.values
      && forall k :: k != "bbox" && k != "gtype" ==> Lookup(rec, k) == Lookup(body.data.value[i][0].data, k)
  {
  }

  /** A row without a node anywhere makes hydration throw, whatever the other rows hold. */
  lemma HydrateThrows(body: Body, i: nat)
    requires body.data.Some? && i < |body.data.value|
    requires |body.data.value[i]| == 0 || !body.data.value[i][0].Node?
    ensures Hydrate(body) == TypeError
  {
  }

  /** Stripping is idempotent: a hydrated record has nothing left to strip. */
  lemma StripGeometryIdempotent(data: PropMap)
    ensures StripGeometry(StripGeometry(data)) == StripGeometry(data)
  {
    var once := StripGeometry(data);
    assert Remove(once, "bbox") == once by {
      WithoutNothing(once.keys, {"bbox"});
    }
    assert Remove(once, "gtype") == once by {
      WithoutNothing(once.keys, {"gtype"});
    }
  }

}
