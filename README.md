# TigerGraph client response normalisation

This project models the glue logic of `TigerGraphConnection`, the dashboard's client of a
local graph-database proxy. The model covers how the client shapes its request strings
and how it reshapes the proxy's decoded JSON replies into the `{nodes, links}` graph the
visualisation layer draws:

- **Entity ids.** A vertex record becomes a node with `id = "<v_type>_<v_id>"` and with
  `v_id` and `v_type` as strings. An edge record becomes a link with
  `source = "<from_type>_<from_id>"` and `target = "<to_type>_<to_id>"`. In both cases the
  record's `attributes` are spread first, so the synthesised fields win on a key clash.
  An absent field renders as `undefined`, as a template literal renders it.
- **getTigerGraphData.** The `v=`/`e=` query string. The `error` flag is checked first.
  Then every element of `Res[0].Seed` becomes a node and every element of `Res[1].edges`
  becomes a link, with no filtering.
- **The dual prefix scan** shared by `runInterpretedQuery` and `runQuery`. For each result
  and each keyed group in it, the group is scanned once for vertices and once for edges.
  Each scan stops at the first element failing its guard.
- **The decision rules after the scan.** `runInterpretedQuery` is strict. `runQuery` is
  lenient, and in its edge-only case it synthesises two endpoint nodes per link.
- **getAllEdgeCount**: the running sum over the per-type counts.

Modules:

- `Outcomes`: `Option`, a `Result` usable with `:-`, and the `Failure` kinds. A failure is
  an HTTP status, a server error message, no vertices, no edges, or a `TypeError` from
  reading a property of `null` or `undefined`.
- `JsValues`: decoded JSON and the JavaScript behaviour the client relies on. This covers
  property reads that throw on `null`/`undefined`, `for…in` enumeration, object spread,
  template-literal rendering and truthiness.
- `GraphRecords`: node and link synthesis, and the specification of the scan. A scan is
  specified by the elements it selects (`PrefixScan`, `SelectGroup`, `SelectGroups`). The
  records are then built from those elements (`Records`, `Scan`).
- `TigerGraph`: the connection's operations as methods with the source's loops. Each
  method is proved equal to a specification function, and lemmas state what the source
  promises about those functions.

The HTTP exchange is an input to each operation. It is given as an `HttpReply` with the
`ok` flag, the status and the decoded body the proxy returned. `GetTigerGraphData`,
`RunInterpretedQuery` and `RunQuery` return the URL they request (`RunInterpretedQuery`
also the query text it posts), together with what the call resolves or rejects with.
`GetAllEdgeCount` takes the per-type count outcomes as input and returns the edge types
whose count it requested, together with the sum or the first failure.

Two behaviours of the code differ from what a reader of the method names might expect.
The model keeps both as written:

- In `runQuery`'s edge-only case, the endpoint nodes are read from the built link objects
  (`links[edge].from_type` and so on, `src/pages/Cosmograph/tigergraph.ts:168-169`), not
  from the edge records. A link has those properties only when the edge's `attributes`
  carried them. If the attributes carry neither the type nor the id of an endpoint, that
  node's id is `undefined_undefined`.
- `runInterpretedQuery` reports "No vertices detected" whenever there are no nodes, even
  when there are also no links. "No edges detected" is reported only when there are nodes
  but no links.

## Model

| member | source | states |
|---|---|---|
| TigerGraph.Message | src/pages/Cosmograph/tigergraph.ts:54-122 | exactly the HTTP-status and server-error rejections carry the "Error! status: " prefix; "No vertices detected" and "No edges detected" do not |
| TigerGraph.StatusAndServerErrorShareText | src/pages/Cosmograph/tigergraph.ts:54-66 | an HTTP-status rejection and a server-error rejection have the same text exactly when the server's message is the status's decimal text |
| GraphRecords.NodeFields | src/pages/Cosmograph/tigergraph.ts:75 | a node's `id` is `${v_type}_${v_id}`, its `v_id` and `v_type` are their renderings and override same-named attributes, and every other attribute is kept unchanged |
| GraphRecords.LinkFields | src/pages/Cosmograph/tigergraph.ts:76 | a link's `source` and `target` are `${from_type}_${from_id}` and `${to_type}_${to_id}` and override same-named attributes; every other attribute is kept unchanged |
| GraphRecords.Records | src/pages/Cosmograph/tigergraph.ts:110 | a scan pushes one record per selected element |
| GraphRecords.RecordsAppend | src/pages/Cosmograph/tigergraph.ts:108-110 | pushing the records of two runs of elements in turn gives the records of the joined run, in order |
| GraphRecords.PrefixScanIsLongestPrefix | src/pages/Cosmograph/tigergraph.ts:108-116 | one scan selects exactly the longest prefix of elements passing its guard; the element ending that prefix fails the guard; the scan throws exactly when the element ending the prefix is null |
| GraphRecords.ScanStopsAtFirstMismatch | src/pages/Cosmograph/tigergraph.ts:109 | a malformed element ends the scan even when well-formed elements follow it |
| GraphRecords.BothShapesFromOneElement | src/pages/Cosmograph/tigergraph.ts:107-116 | the vertex and edge scans of a group are independent, so one element can yield both a node and a link |
| GraphRecords.NonCollectionGroupAddsNothing | src/pages/Cosmograph/tigergraph.ts:106-116 | a group that is neither an array nor an object adds no node and no link |
| GraphRecords.SelectGroupsAppend | src/pages/Cosmograph/tigergraph.ts:106-117 | scanning two runs of groups selects the first run's elements before the second's; a failure in the first run is the one reported |
| GraphRecords.ScanOrderIsResultsThenKeys | src/pages/Cosmograph/tigergraph.ts:105-118 | output order is results order, then key order, then element order |
| GraphRecords.GroupsOfAppend | src/pages/Cosmograph/tigergraph.ts:105-106 | the keyed groups of two runs of results are those of the first run followed by those of the second |
| GraphRecords.GroupsOfFailureIsFinal | src/pages/Cosmograph/tigergraph.ts:105-118 | once a read throws in some group, the whole scan rejects with that error, whatever later results hold |
| GraphRecords.ExtendThen | src/pages/Cosmograph/tigergraph.ts:110-115 | pushing the records of two selections in turn onto a graph equals pushing the records of their combination |
| JsValues.Get | src/pages/Cosmograph/tigergraph.ts:70-71 | reading a named property fails with a TypeError exactly when the value is null or undefined |
| JsValues.At | src/pages/Cosmograph/tigergraph.ts:70-71 | indexing fails with a TypeError exactly when the value is null or undefined |
| JsValues.Entries | src/pages/Cosmograph/tigergraph.ts:75-76 | `for…in` visits an array's elements, an object's property values and a string's characters, and nothing of null or undefined |
| JsValues.LookupFinds | src/pages/Cosmograph/tigergraph.ts:109 | a property is defined exactly when some field carries its key |
| JsValues.FieldsToMapAgreesWithLookup | src/pages/Cosmograph/tigergraph.ts:75 | spreading an object copies exactly its defined properties, each with the value a read gives |
| TigerGraph.VertexSegmentAppend | src/pages/Cosmograph/tigergraph.ts:48 | the vertex segment is the concatenation of `v=<type>&` per type, in order |
| TigerGraph.EdgeSegmentAppend | src/pages/Cosmograph/tigergraph.ts:49-50 | the edge segment is the `e=<type>` terms joined by `&`, with no trailing separator |
| TigerGraph.QueryString | src/pages/Cosmograph/tigergraph.ts:47-50 | the loops and the trim build the vertex segment followed by the edge segment; empty type lists give empty segments |
| TigerGraph.PushAll | src/pages/Cosmograph/tigergraph.ts:75-76 | the seed loops push one record per element, in order, with no filtering, and throw on a null element |
| TigerGraph.GetTigerGraphData | src/pages/Cosmograph/tigergraph.ts:46-79 | the request is the proxy URL followed by the query string, and the call resolves or rejects as `SeedData` says |
| TigerGraph.SeedErrorFlagFirst | src/pages/Cosmograph/tigergraph.ts:64-66 | a truthy `error` flag rejects with the server's message before `Res` is read |
| TigerGraph.SeedKeepsEveryRecord | src/pages/Cosmograph/tigergraph.ts:70-78 | on success there is one node per seed vertex and one link per edge, in input order |
| TigerGraph.PushPrefix | src/pages/Cosmograph/tigergraph.ts:108-111 | the scan loop with `break` pushes exactly the records of the elements `PrefixScan` selects |
| TigerGraph.ScanGroupInto | src/pages/Cosmograph/tigergraph.ts:107-116 | the body of the inner loop pushes the vertex scan's nodes, then the edge scan's links, of one group |
| TigerGraph.ScanGroupsInto | src/pages/Cosmograph/tigergraph.ts:106-117 | the inner loop pushes the records of every group of a result, in key order, stopping at the first failure |
| TigerGraph.ScanResults | src/pages/Cosmograph/tigergraph.ts:105-118 | the nested loops build exactly the graph `Scan` specifies |
| TigerGraph.InterpretedQuery | src/pages/Cosmograph/tigergraph.ts:88 | the payload is the fixed prefix, the graph name, " { ", the query body and " }", and each part can be read back at its position |
| TigerGraph.RunInterpretedQuery | src/pages/Cosmograph/tigergraph.ts:82-125 | the request goes to the proxy's `/interpretedQuery` endpoint, the posted query is the interpreted-query text, and the call resolves or rejects as `InterpretedResult` says |
| TigerGraph.InterpretedErrorFlagFirst | src/pages/Cosmograph/tigergraph.ts:99-101 | a truthy `error` flag rejects with the server's message before `results` is read |
| TigerGraph.InterpretedNeedsBoth | src/pages/Cosmograph/tigergraph.ts:119-124 | no nodes rejects with "No vertices detected" even with no links; otherwise no links rejects with "No edges detected"; otherwise the scanned graph is returned unchanged |
| TigerGraph.EndpointNodesPairs | src/pages/Cosmograph/tigergraph.ts:167-170 | exactly two nodes per link, the from-endpoint then the to-endpoint, in link order, duplicates kept |
| TigerGraph.EndpointsComeFromAttributes | src/pages/Cosmograph/tigergraph.ts:168-169 | each endpoint node (its `id`, `v_id` and `v_type`) is exactly the node built from the edge's spread `attributes`, not from the edge's own endpoint fields |
| TigerGraph.EdgeWithoutAttributesHasUndefinedEndpoints | src/pages/Cosmograph/tigergraph.ts:158-169 | an edge without attributes gets the right `source` and `target`, yet its endpoint nodes have id `undefined_undefined` |
| TigerGraph.Settle | src/pages/Cosmograph/tigergraph.ts:162-176 | the decision code after the scan, including the endpoint-pushing loop, yields exactly `Lenient` |
| TigerGraph.RunQuery | src/pages/Cosmograph/tigergraph.ts:128-177 | the request is the proxy URL followed by `/installedQuery/<name>`, and the call resolves or rejects as `InstalledResult` says |
| TigerGraph.InstalledOutcomes | src/pages/Cosmograph/tigergraph.ts:162-176 | nodes without links give `{data}`; neither gives `{data: data or ""}`; both give the scanned graph; links without nodes give the links with their endpoint nodes |
| TigerGraph.TotalCount | src/pages/Cosmograph/tigergraph.ts:273-281 | the sum succeeds exactly when every count does; otherwise it fails with the first failed count |
| TigerGraph.GetAllEdgeCount | src/pages/Cosmograph/tigergraph.ts:273-281 | counts are requested in order, one per edge type; the first failure stops the requests and rejects the call |

## Left out

- HTTP transport: `fetch`, the `response.ok` and `status` checks, and JSON decoding are inputs (`HttpReply`). A body that is not valid JSON is not modelled. Only the proxy URLs of the modelled calls are built; the HTTP method and headers are not.
- The JSON encoding of `runInterpretedQuery`'s request body (`JSON.stringify({query: …})`) is not modelled: the model returns the query text that goes into the `query` field.
- `createConnection`, `queries`, `getVertexEdgeTypes`, `getVertexCount` and `getEdgeCount` are left out: they only log, rename or pass on the server's payload (`createConnection` resolves with `undefined` after logging; `getVertexEdgeTypes` renames `v`/`e` to `vertices`/`edges`). `getAllEdgeCount` takes the outcomes of its `getEdgeCount` calls as a given sequence.
- GetAllEdgeCount: the counts are integers. JavaScript's `+=` on a non-numeric payload (string concatenation) and floating-point sums are not modelled.
- The constructor, the `token` field and the commented-out token flows. No core operation reads `host`, `secret` or `token`.
- `console.log` calls, `async` sequencing, and the re-wrapping of every `runQuery` rejection as `Error(err)`. The model reports the original failure.
- The wording of JavaScript's `TypeError` messages. A `TypeError` records only the property whose read threw.
- `runQuery`'s `params` argument is never sent, so it is not modelled.
- The optional `x`/`y` node fields are never set here and are floating-point.
- Objects with repeated keys: `Json.Obj` admits a field list in which a key repeats, which a JSON parser never produces. On such a value `Entries` visits every listed field, while property reads and spread keep the last one. Nothing in the model restricts objects to distinct keys.
- JSON numbers are integers, rendered in decimal. Fractional and exponent renderings are not modelled.
- Property enumeration order is the order in which an object's fields are listed. JavaScript's rule that integer-like keys enumerate first is not modelled.
- Object spread of a string or array attribute copies index-keyed entries. Spreading a number, a boolean, null or undefined copies nothing, as in JavaScript.
- Entries, At and Spread treat a string as a sequence of Unicode scalar values, while JavaScript enumerates, indexes and spreads it by UTF-16 code unit. For a string holding a character outside the Basic Multilingual Plane, JavaScript visits and copies two keys per such character where the model has one, so a `Seed`, `edges` or `attributes` value of that kind gives fewer entries in the model than in the client.
