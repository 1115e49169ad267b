# sails-neo4j query compilation and result decoding, in Dafny

This project models the pure core of the sails-neo4j adapter (`lib/adapter.js`).
The adapter turns Waterline operations into Cypher statements sent to the Neo4j REST endpoint, and turns the endpoint's answers back into records.

The model covers these parts:

- **`normalize`** drops `undefined`/`null` properties and turns a numeric-string `id` into a number (module `Normalizer`).
- **`UtilService.merge`** is the right-biased union of two objects, built by two copying loops (module `Util`).
- **`parameterize`** produces three outputs from one property mapping (module `Parameterizer`):
  - the inline node pattern `{k:{pk},...}`;
  - the SET list `alias.k={pk},...`;
  - the parameter bindings, produced by `JSON.parse` with the prefixing reviver.
- **The statement builders** of `find`, `create`, `update`, `destroy`, `link`, `unlink`, `count`, `nearby` and `graph` (module `QueryCompiler`).
- **The callbacks**: the two guards every callback opens with, `hydrate`, and the reply each operation hands back (module `Responses`).
- **The `graph` row decoder** (module `GraphDecoder`). It builds, per relationship type:
  - the properties of the relationship joining the two nodes;
  - whether that relationship runs from the starting node to the record;
  - the node identifiers of the last shortest path.

Supporting modules:

- `OrderedMaps`: JavaScript objects as ordered maps. An `Obj` is an insertion-ordered key list plus a dictionary, kept in step.
- `JsValues`: scalar values, truthiness and `||`.
- `Text`: `join`, `split`, `indexOf`, `lastIndexOf`/`substr`, decimal rendering and the numeric-string test.
- `Optional`: an `Option` datatype.

The properties proved fall into these groups:

- **`normalize`** is idempotent and leaves no nullish property.
- **`merge`** is the right-biased union, with the left operand's key order first.
- **`parameterize`** without a prefix clash binds every field under its own name and under its prefixed name. A clash is proved to overwrite bindings.
- **Round trips.** The pattern and the SET list read back, through `split`, as (field, placeholder) pairs. For `find`, `update`, `destroy`, `link`, `count` and `nearby`, the query is stated in full and embeds those texts. The statement's bindings resolve the placeholders to exactly the normalized fields. So the properties of the filters and of the new values enter these queries only as placeholders. `find`'s raw `_where` condition and its `limit` and `skip` values are still written into the text as they are.
- **Bindings across merges.** For `update`, `link`, `unlink` and `graph`, the bindings of each fragment survive the merges. The conditions are stated, and a counterexample shows they are needed.
- **Query shape.**
  - `find`'s raw WHERE, SKIP and LIMIT clauses;
  - `unlink`'s direction;
  - `graph`'s `OPTIONAL MATCH`, self-exclusion and RETURN list, whose names are pairwise distinct.
- **Callbacks.** Each reply says exactly when it is an error, a result or a thrown exception.
- **The graph decoder.** The loop, written as a method with loop invariants, is proved equal to a declarative reference. That reference gives:
  - the row throws exactly when a path column comes before any relationship, or a truthy odd column is not a path;
  - an entry exists exactly for the relationship types seen;
  - each entry's data, hops and `isMine` flag are as the reference describes.

Clock readings (`new Date()`) are parameters. The HTTP transport is left out; a `Response` value stands for what the callback receives.

## Model

| member | source | states |
|---|---|---|
| Normalizer.Normalize | lib/adapter.js:28-32 | No property of the result is `undefined` or `null`. A property survives exactly when it held neither, keeps its value (except `id`) and keeps its relative order. `id` is passed through the numeric-string coercion. |
| Normalizer.CoerceIdValue | lib/adapter.js:30 | A string for which `!isNaN` holds becomes `Number` of it, anything else is unchanged, and the result is never a numeric string. |
| Normalizer.NormalizeIdempotent | lib/adapter.js:28-32 | Normalizing twice is normalizing once. |
| Normalizer.NormalizeFixesNormalized | lib/adapter.js:28-32 | A mapping with no nullish property and no numeric-string `id` is returned unchanged. |
| Normalizer.NormalizeNumericId | lib/adapter.js:30 | An `id` holding the decimal text of an integer becomes that integer, as `Number` gives for every integer JavaScript represents exactly (magnitude up to 2^53). |
| Util.Merge | lib/adapter.js:17-24 | The result's dictionary is the left operand's overwritten by the right's; its keys are the left's in order, then the right's new ones in order; an absent operand counts as `{}`. |
| Util.TwoLoops | lib/adapter.js:20-22 | Running the two `for..in` copy loops into `{}` yields that union and that key order. |
| Util.CopyLoop | lib/adapter.js:21 | Copying every property of an object into `{}` rebuilds the same object, order included. |
| Util.AssignKeysOrder | lib/adapter.js:22 | Writing names into an object appends exactly the names it lacked, in write order. |
| Util.MergeKeepsRight | lib/adapter.js:22 | A property of the right operand always survives the merge with its value. |
| Util.MergeKeepsLeft | lib/adapter.js:21-22 | A property of the left operand survives unless the right operand has the same name. |
| Parameterizer.Parameterize | lib/adapter.js:34-47 | An absent object gives empty texts and `{}` bindings; a present one always gives a braced pattern, and one with no fields left after `normalize` gives `{}`, an empty SET list and no bindings. |
| Parameterizer.ReviveSpec | lib/adapter.js:45 | Without a prefix clash the bindings are the mapping followed by its prefixed copy: every field is bound under its name and under prefix + name to its value (and with no prefix the bindings are the mapping). |
| Parameterizer.ReviveNames | lib/adapter.js:45 | Without a clash, every bound name is a field name or the prefix followed by one. |
| Parameterizer.ReviveClash | lib/adapter.js:45 | With fields `a` and prefix + `a`, the reviver overwrites the second with the first's value before visiting it, so the second field's value is bound nowhere. |
| Parameterizer.PatternRoundTrip | lib/adapter.js:43 | The inline pattern, split at commas, reads back as the (field, prefix + field) pairs in key order, when field names contain no separator. |
| Parameterizer.FormRoundTrip | lib/adapter.js:44 | The SET list reads back the same way after the `alias.` lead. |
| Parameterizer.ParameterizeDenotes | lib/adapter.js:42-46 | The three outputs agree: substituting the bindings into the placeholders of the pattern, or of the SET list, gives back the normalized mapping field by field and in order. |
| Parameterizer.TextsIgnoreValues | lib/adapter.js:43-44 | The pattern and SET list depend only on the normalized field names, never on the values. |
| Parameterizer.UnprefixedBindings | lib/adapter.js:45 | With no prefix the bindings are exactly the normalized fields. |
| Parameterizer.FragmentBinds | lib/adapter.js:45 | Without a clash, a fragment's bindings bind every field under prefix + field. |
| Text.SplitJoin | lib/adapter.js:43-44 | `split(sep)` undoes `join(sep)` when no part contains the separator. |
| Text.LastSegment | lib/adapter.js:461 | `substr(lastIndexOf('/') + 1)` is the slash-free tail after the last slash, or the whole text when there is none. |
| Text.ParseNumber | lib/adapter.js:30 | `Number` of a string that passes `!isNaN`: only an optional leading sign and digits are accepted. A digit string reads as its decimal value, `+` followed by digits as that value, and `-` followed by digits as its negation. |
| Text.ParseIntText | lib/adapter.js:30 | The decimal text of an integer is a numeric string whose `Number` is that integer, for integers JavaScript represents exactly (magnitude up to 2^53). |
| QueryCompiler.Clause | lib/adapter.js:230-231 | The clause is empty exactly when the option is falsy; otherwise it is the keyword followed by the option's text. |
| QueryCompiler.FilterOf | lib/adapter.js:223-226 | The filter never contains `_where` and keeps every other property of `options.where` (or `{}`). |
| QueryCompiler.FindStatement | lib/adapter.js:222-237 | `find` binds exactly the normalized filter without `_where`. |
| QueryCompiler.FindWhereClause | lib/adapter.js:225-235 | Right after the label pattern comes ` WHERE <raw text> RETURN n` exactly when `_where` is truthy, else ` RETURN n`. |
| QueryCompiler.FindPaging | lib/adapter.js:230-235 | The query ends with RETURN, then the SKIP clause, then the LIMIT clause. |
| QueryCompiler.FindDenotes | lib/adapter.js:229-236 | The pattern of `find` reads back as placeholders that the statement's bindings resolve to the normalized filter. |
| QueryCompiler.CreateStatement | lib/adapter.js:251-252 | The query is `CREATE (n:<label>{props}) SET n.id = id(n) RETURN n`. The `props` parameter is exactly `normalize(values)`: the non-nullish values in their order, each unchanged except a numeric-string `id`, which becomes its number. |
| QueryCompiler.UpdateStatement | lib/adapter.js:280-286 | The query is `MATCH (n:<label>` + the `where_` pattern + `) SET ` + the `vals_` SET list + ` RETURN n`. Every binding of the values fragment survives the merge unchanged. |
| QueryCompiler.UpdateBinds | lib/adapter.js:280-286 | Every `where_` and `vals_` placeholder is bound to its own field's value, given no value field is named `where_` + a filter field. |
| QueryCompiler.UpdateDenotes | lib/adapter.js:280-286 | Under the same condition the match pattern reads back as the filter and the SET list as the new values. |
| QueryCompiler.UpdateCrossClash | lib/adapter.js:286 | The condition is needed: a value field named `where_a` takes over the filter's `{where_a}` placeholder. |
| QueryCompiler.DestroyStatement | lib/adapter.js:313-318 | The query is the match on the label and the `where_` pattern followed by the cascade `OPTIONAL MATCH (n)-[r]-() DELETE n,r`, and the bindings are the `where_` fragment's. |
| QueryCompiler.DestroyDenotes | lib/adapter.js:313-318 | The `destroy` pattern reads back as placeholders bound to the filter's values. |
| QueryCompiler.StampTimes | lib/adapter.js:334-336 | `createdAt` and `updatedAt` hold the caller's value when truthy, else the clock reading; nothing else changes. The caller's keys keep their order, and a stamp the caller did not give is appended after them, `createdAt` before `updatedAt`. |
| QueryCompiler.LinkStatement | lib/adapter.js:338-348 | The query matches `n` with the `start_` pattern and `m` with the second label (default: the collection) and the `end_` pattern. It creates `(n)-[r:<type>` + the `link_` pattern + `]->(m)`, with the type defaulting to `link`. Every binding of the `end_` fragment survives both merges unchanged. |
| QueryCompiler.LinkBinds | lib/adapter.js:341-348 | The `start_`, `end_` and `link_` placeholders are all bound to their fields, given no cross-fragment name clash. |
| QueryCompiler.LinkDenotes | lib/adapter.js:334-348 | Under the conditions of LinkBinds, the three patterns of the `link` query read back as placeholders that the bindings resolve to the start filter, the end filter and the stamped relationship values. |
| QueryCompiler.LinkTimestamps | lib/adapter.js:334-348 | `{link_createdAt}` and `{link_updatedAt}` are bound to the caller's timestamps when truthy, else to the clock readings. |
| QueryCompiler.UnlinkStatement | lib/adapter.js:359-370 | The query is the full `unlink` text: the two matches with their `start_` and `end_` patterns, the relationship with its type (default `link`), its `link_` pattern and direction, then `DELETE r`. Every binding of the `end_` fragment survives both merges unchanged. |
| QueryCompiler.UnlinkDirection | lib/adapter.js:365-369 | The relationship is matched start-to-end (`]->(m)`) exactly when the request is not bidirectional, and undirected (`]-(m)`) exactly when it is. |
| QueryCompiler.UnlinkBinds | lib/adapter.js:362-370 | The three groups of placeholders are bound to their fields, given no cross-fragment clash. |
| QueryCompiler.CountStatement | lib/adapter.js:473-478 | `count` binds exactly the normalized `options.match`. Its query is `MATCH (n:<label>` + the pattern + `) RETURN count(n)`. |
| QueryCompiler.CountDenotes | lib/adapter.js:473-478 | The pattern of `count` reads back as placeholders that the statement's bindings resolve to the normalized filter. |
| QueryCompiler.NearbyStatement | lib/adapter.js:384-390 | `nearby` binds exactly the normalized filter. Its query is the spatial-index START clause followed by `MATCH (n:<label>` + the pattern + `) RETURN n`. |
| QueryCompiler.NearbyDenotes | lib/adapter.js:384-390 | The pattern of `nearby` reads back as placeholders that the statement's bindings resolve to the normalized filter. |
| QueryCompiler.HopClause | lib/adapter.js:416-422 | The clause for relation `i` is `MATCH h<i>=shortestPath(me-[r<i>:<type>]-them)`, with `OPTIONAL ` in front exactly when the relation is not required. |
| QueryCompiler.ReturnNames | lib/adapter.js:411-421 | The RETURN list is `them`, `me`, then `r<i>`, `h<i>` for i = 1..n, two per relation. |
| QueryCompiler.ReturnNamesDistinct | lib/adapter.js:411-421 | The returned names are pairwise distinct. |
| QueryCompiler.GraphStatement | lib/adapter.js:403-429 | The query is the full `graph` text: the optional START clause, the matches of `me` and `them` with their patterns, the optional self-exclusion, the hop clauses and the RETURN list. Every binding of the `them_` fragment survives the merge unchanged. |
| QueryCompiler.GraphMatchesMe | lib/adapter.js:428 | The query matches `me` right after the optional START, and `me` is the second returned name. |
| QueryCompiler.GraphNotSelf | lib/adapter.js:414-428 | `WHERE them.id <> me.id` follows the two node patterns exactly when `me` is given. |
| QueryCompiler.GraphReturnList | lib/adapter.js:421-428 | The query ends with `RETURN DISTINCT` and the list, which splits back into its names. |
| QueryCompiler.GraphBinds | lib/adapter.js:403-429 | The `me_` and `them_` placeholders are bound to the two filters, given no `where` field named `me_` + a `me` field. |
| Responses.Classify | lib/adapter.js:239-240 | A transport error comes first. A missing body throws. A cause reports its exception, or completes without result when it has none. Only an error-free body without cause goes on to the data. |
| Responses.StripGeometry | lib/adapter.js:57-58 | `bbox` and `gtype` are gone; every other field keeps its value. |
| Responses.Hydrate | lib/adapter.js:49-63 | `hydrate` succeeds exactly when there is no data or every row starts with a node. It then gives one record per row, each the row's node with its geometry fields removed. |
| Responses.Records | lib/adapter.js:53-60 | One record per row, in row order, each the first column's stripped properties. |
| Responses.RecordsReply | lib/adapter.js:238-242 | `find` reports an error exactly when rejected. It returns records exactly when the guards pass and every row starts with a node. It throws exactly when there is no body, or a row lacks a node. |
| Responses.FirstRecordReply | lib/adapter.js:255-260 | `create` (and `update`) yields the first hydrated record, or none when no row came back. It throws when hydration throws, and also when the server lacks the spatial plugin, whose URL is read before the geometry test. |
| Responses.DestroyReply | lib/adapter.js:320-323 | `destroy` yields `{}` exactly when the guards pass. |
| Responses.AckReply | lib/adapter.js:350-353 | `link`/`unlink` complete without a result exactly when not rejected and a body is present. |
| Responses.CountReply | lib/adapter.js:480-483 | `count` yields `data[0][0]`. It throws when there is no first row, and yields nothing for an empty first row. |
| Responses.TransportErrorFirst | lib/adapter.js:239 | A transport error is reported as is by every callback, whatever the body. |
| Responses.CauseBeforeData | lib/adapter.js:240 | A cause wins over any data that came with it. |
| Responses.HydratedRecords | lib/adapter.js:53-60 | Every hydrated record comes from a node row, lacks the geometry fields and keeps every other field. |
| Responses.HydrateThrows | lib/adapter.js:54 | One row without a leading node makes `hydrate` throw. |
| Responses.StripGeometryIdempotent | lib/adapter.js:57-58 | Stripping a stripped record changes nothing. |
| GraphDecoder.SelfOf | lib/adapter.js:439-440 | A column's node URL is known exactly when the column holds a node. |
| GraphDecoder.Hops | lib/adapter.js:461 | The hops are the last URL segment of every node after the first, one fewer than the nodes. |
| GraphDecoder.Step | lib/adapter.js:450-461 | One relationship or path keeps the last type's entry present. It throws exactly for a path with no relationship before it, or a non-path. It never loses an entry or reorders the types. |
| GraphDecoder.RunDescribes | lib/adapter.js:448-462 | Folding the events succeeds exactly when the row is not broken, and then describes it: an entry per type seen, each with the reference data, hops and flag. |
| GraphDecoder.DecodeRowSpec | lib/adapter.js:436-462 | Decoding a row throws exactly when the row is broken; otherwise it has exactly the relationship types seen, each described by the reference. |
| GraphDecoder.DecodeColumns | lib/adapter.js:448-462 | The two nested loops throw exactly when the row is broken, and otherwise produce the reference description. |
| GraphDecoder.DecodeFrom | lib/adapter.js:448-462 | The outer loop from any column keeps the state sound and throws exactly when the row is broken. |
| GraphDecoder.DecodeColumn | lib/adapter.js:449-461 | One column: a list in an even column, a path in an odd one, falsy columns skipped; throws exactly when the events so far become broken. |
| GraphDecoder.DecodeRels | lib/adapter.js:452-459 | The inner loop over a relationship list keeps the state sound for the list's events. |
| GraphDecoder.MineSticks | lib/adapter.js:458 | Once an entry is mine, later events never clear the flag. |
| GraphDecoder.UnjoinedStaysFresh | lib/adapter.js:456-457 | A type whose relationships never join the two nodes keeps empty data and is not mine. |
| GraphDecoder.GraphReply | lib/adapter.js:433-467 | `graph` reports an error exactly when rejected. It yields one result per row exactly when the guards pass and every row hydrates and decodes. Otherwise it throws. |
| GraphDecoder.GraphReplyRows | lib/adapter.js:436-467 | Result `i` carries row `i`'s stripped record and a graph attribute described by the reference for row `i`. |
| GraphDecoder.GraphReplyThrows | lib/adapter.js:436-461 | One broken row makes the whole callback throw. |
| GraphDecoder.DecodeExample | lib/adapter.js:448-461 | A row with one relationship from the starting node to the record and its path yields one mine entry with the relationship's data and the record's identifier as hop. |
| GraphDecoder.HopsExample | lib/adapter.js:461 | `["node/5","node/9","node/2"]` gives hops `["9","2"]`. |

## Left out

- HTTP transport, `registerConnection`, `teardown`, `define`, `drop`, `describe` and `join`: I/O or logging without logic of their own. A `Response` value stands for what the transport delivers.
- The haversine distance and its `kilometers`/`miles` attributes in `nearby` and `graph`: floating point.
- `parseFloat(...).toFixed(...)` in the START clauses: floating point. An `Anchor` carries the three already-formatted texts.
- `nearby` adds a distance attribute to each record. The model returns the records without it, because the value is floating point.
- The spatial-index request of `create`/`update` on a connection with geometry: a second HTTP call. The model covers `create` and `update` on connections without geometry.
- Responses.FirstRecordReply: covers connections without geometry only. With geometry and no returned row, the source throws reading `model[connection.geom.lat]`; that case is not modelled, and neither is the follow-up request.
- QueryCompiler.NearbyStatement: `nearby` reads `connection.geom.lat` before building anything (lib/adapter.js:382-383), so on a connection without geometry the source throws before sending. The model leaves the connection out and always builds the statement.
- QueryCompiler.GraphStatement: `graph` likewise reads `connection.geom.lat` and `connection.geom.lon` unconditionally (lib/adapter.js:405-406) and throws on a connection without geometry. The model always builds the statement.
- `new Date(...)` in `hydrate` and `_model` instantiation: they wrap values without changing which fields a record has.
- Numbers are unbounded integers. JavaScript rounds `Number(...)` of a longer digit string to a double, for example `Number("9007199254740993")` is 9007199254740992. That rounding is not modelled, so the numeric-id results hold as stated only for integers of magnitude up to 2^53.
- Text.ParseNumber: accepts the empty string, and decimal digits with an optional sign. A lone sign is rejected, as `isNaN` rejects it. It rejects other forms that `isNaN` also accepts: surrounding whitespace, `Infinity`, the `0x`, `0b` and `0o` forms, fractions and exponents.
- Normalizer.CoerceIdValue: inherits that gap. For example, an `id` of `"0x10"` stays a string, while the source turns it into 16.
- Normalizer.Normalize: inherits the same gap through CoerceIdValue.
- Integer-like property names, which JavaScript enumerates first, are not reordered: objects keep insertion order.
- The `JSON.stringify` round trip in `parameterize` turns dates into ISO strings. The model keeps date values as they are.
- `JsValues.ToText` renders a date as its millisecond count rather than JavaScript's date string.
- GraphDecoder.DecodeColumn: non-list truthy values in even graph columns are skipped. The source differs in two cases. It would iterate a string character by character. For a path object, whose `length` is numeric, it would read `el[j]` as `undefined` and throw at `rel.start`. The queries the adapter builds never put either in an even column.
- A relationship type named `kilometers` or `miles` would collide with the distance attributes. The graph attribute is modelled as a separate map beside the record rather than as the field `params.attr` (default `graph`) written into it.
- The deep-clone and in-place mutation semantics of the JavaScript objects: every operation is a pure function.
- Parameterizer.ReviveSpec: stated only when no field name is the prefix followed by another field name. `Parameterizer.ReviveClash` shows what happens otherwise.
- QueryCompiler.UpdateBinds: stated only without name clashes across the two fragments. `QueryCompiler.UpdateCrossClash` shows the clash.
- QueryCompiler.UpdateDenotes: same condition as UpdateBinds, and field names must not contain `,`, `:` or `=`, which would make the texts ambiguous.
- QueryCompiler.LinkBinds: stated only without name clashes among the three fragments.
- QueryCompiler.LinkDenotes: same condition as LinkBinds, and field names must not contain `,`, `:` or `=`.
- QueryCompiler.LinkTimestamps: same condition as LinkBinds, with the clock readings taken to be dates.
- QueryCompiler.UnlinkBinds: stated only without name clashes among the three fragments.
- QueryCompiler.GraphBinds: stated only without name clashes between the two fragments.
- QueryCompiler.FindDenotes: stated for field names without `,`, `:` or `=`.
- QueryCompiler.CountDenotes: stated for field names without `,`, `:` or `=`.
- QueryCompiler.NearbyDenotes: stated for field names without `,`, `:` or `=`.
- QueryCompiler.DestroyDenotes: stated for field names without `,`, `:` or `=` and without a prefix clash.
- Parameterizer.ParameterizeDenotes: stated for field names without `,`, `:` or `=` and without a prefix clash.
- Parameterizer.PatternRoundTrip: stated for field names without `,`, `:` or `=`.
- Parameterizer.FormRoundTrip: stated for field names without `,`, `:` or `=`.
- Responses.Classify: a `cause` without an `exception` calls back with `undefined`, which is modelled as a completion without result.
