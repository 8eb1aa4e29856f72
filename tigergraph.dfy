/** The client of the graph-database proxy: how each call shapes its request string and
    normalises the decoded reply into nodes and links. The HTTP exchange itself is an
    input: the reply the proxy gave to the request the method builds. */
module TigerGraph {
  import opened Outcomes
  import opened JsValues
  import opened GraphRecords

  /** The proxy every request goes to. */
  const Proxy := "http://127.0.0.1:8010"

  /** The connection descriptor; no operation changes it after construction. */
  datatype Connection = Connection(host: string, graphname: string, secret: string, token: string)

  /** What `fetch` and `response.json()` delivered: `ok`, `status`, and the decoded body. */
  datatype HttpReply = HttpReply(ok: bool, status: int, body: Json)

  /** What an installed query resolves with: a graph, or the raw reply as `{data}`. */
  datatype QueryOutput = GraphOut(graph: Graph) | Data(data: Json)

  /** The text of the Error each non-TypeError failure is raised with. An HTTP status
      and a server error share the "Error! status: " prefix; the empty-result errors do
      not carry it. */
  function Message(f: Failure): (m: string)
    requires !f.TypeError?
    ensures f.HttpStatus? || f.ServerError? <==> |m| >= 15 && m[..15] == "Error! status: "
  {
    match f
    case HttpStatus(status) => "Error! status: " + IntToString(status)
    case ServerError(message) => "Error! status: " + message
    case NoVertices =>
      assert "No vertices detected"[..15][0] != "Error! status: "[0];
      "No vertices detected"
    case NoEdges =>
      assert "No edges detected"[..15][0] != "Error! status: "[0];
      "No edges detected"
  }

  /** A rejection for HTTP status `status` and one for a server error with message `m`
      read the same exactly when `m` is the status's decimal text: the texts alone do not
      tell the two kinds apart. */
  lemma StatusAndServerErrorShareText(status: int, m: string)
    ensures Message(HttpStatus(status)) == Message(ServerError(m)) <==> m == IntToString(status)
  {
    var p := "Error! status: ";
    if Message(HttpStatus(status)) == Message(ServerError(m)) {
      assert (p + IntToString(status))[15..] == IntToString(status);
      assert (p + m)[15..] == m;
    }
  }

  // ---------------------------------------------------------------------------
  // The query string of getTigerGraphData

  /** "v=<type>&" for each vertex type, in order: every term keeps its separator. */
  function VertexSegment(ts: seq<string>): string {
    if ts == [] then "" else VertexSegment(ts[..|ts| - 1]) + "v=" + ts[|ts| - 1] + "&"
  }

  /** "e=<type>" for each edge type, joined by "&": no trailing separator. */
  function EdgeSegment(ts: seq<string>): string {
    if ts == [] then ""
    else if |ts| == 1 then "e=" + ts[0]
    else EdgeSegment(ts[..|ts| - 1]) + "&e=" + ts[|ts| - 1]
  }

  lemma {:induction false} VertexSegmentAppend(a: seq<string>, b: seq<string>)
    ensures VertexSegment(a + b) == VertexSegment(a) + VertexSegment(b)
  {
    if b == [] {
      assert a + b == a;
    } else {
      assert (a + b)[..|a + b| - 1] == a + b[..|b| - 1];
      VertexSegmentAppend(a, b[..|b| - 1]);
    }
  }

  lemma {:induction false} EdgeSegmentAppend(a: seq<string>, b: seq<string>)
    requires a != [] && b != []
    ensures EdgeSegment(a + b) == EdgeSegment(a) + "&" + EdgeSegment(b)
  {
    if |b| == 1 {
      assert (a + b)[..|a + b| - 1] == a;
    } else {
      assert (a + b)[..|a + b| - 1] == a + b[..|b| - 1];
      EdgeSegmentAppend(a, b[..|b| - 1]);
    }
  }

  /** Builds `v_str + e_str`: each loop appends a term with its "&", then the edge part
      drops its last character (`slice(0, length - 1)`, which leaves "" alone). */
  method QueryString(vertexTypes: seq<string>, edgeTypes: seq<string>) returns (q: string)
    ensures q == VertexSegment(vertexTypes) + EdgeSegment(edgeTypes)
  {
    var v, e := "", "";
    var i := 0;
    while i < |vertexTypes|
      invariant 0 <= i <= |vertexTypes|
      invariant v == VertexSegment(vertexTypes[..i])
    {
      assert vertexTypes[..i + 1][..i] == vertexTypes[..i];
      v := v + "v=" + vertexTypes[i] + "&";
      i := i + 1;
    }
    assert vertexTypes[..i] == vertexTypes;
    i := 0;
    while i < |edgeTypes|
      invariant 0 <= i <= |edgeTypes|
      invariant e == if i == 0 then "" else EdgeSegment(edgeTypes[..i]) + "&"
    {
      assert edgeTypes[..i + 1][..i] == edgeTypes[..i];
      e := e + "e=" + edgeTypes[i] + "&";
      i := i + 1;
    }
    assert edgeTypes[..i] == edgeTypes;
    e := if |e| == 0 then "" else e[..|e| - 1];
    q := v + e;
  }

  // ---------------------------------------------------------------------------
  // getTigerGraphData

  /** `if (data.error) throw …`: a truthy error flag rejects with the server's message
      before anything else is read. */
  function ServerCheck(body: Json): Result<Json, Failure> {
    if body == Null then Err(TypeError("error"))
    else if Truthy(Field(body, "error")) then Err(ServerError(ShowValue(Field(body, "message"))))
    else Ok(body)
  }

  /** Every element becomes a record, in order, with no filtering; reading `attributes`
      from a null element throws. */
  function BuildAll(s: Shape, es: seq<Json>): Result<seq<Record>, Failure> {
    if exists i :: 0 <= i < |es| && es[i] == Null then Err(TypeError("attributes"))
    else Ok(Records(s, es))
  }

  /** `data.Res[0].Seed` and `data.Res[1].edges`, after the error check. */
  function SeedLists(body: Json): Result<(Value, Value), Failure> {
    var checked :- ServerCheck(body);
    var res :- Get(Some(checked), "Res");
    var first :- At(res, 0);
    var seed :- Get(first, "Seed");
    var second := At(res, 1).value;
    var edges :- Get(second, "edges");
    Ok((seed, edges))
  }

  /** What getTigerGraphData resolves or rejects with for a given reply. */
  function SeedData(reply: HttpReply): Result<Graph, Failure> {
    if !reply.ok then Err(HttpStatus(reply.status))
    else
      var lists :- SeedLists(reply.body);
      var nodes :- BuildAll(Vertex, Entries(lists.0));
      var links :- BuildAll(Edge, Entries(lists.1));
      Ok(Graph(nodes, links))
  }

  /** `for (x in es) acc.push(build(es[x]))` onto an empty list. */
  method PushAll(s: Shape, es: seq<Json>) returns (r: Result<seq<Record>, Failure>)
    ensures r == BuildAll(s, es)
  {
    var out := [];
    var i := 0;
    while i < |es|
      invariant 0 <= i <= |es|
      invariant forall j :: 0 <= j < i ==> es[j] != Null
      invariant out == Records(s, es[..i])
    {
      if es[i] == Null {
        return Err(TypeError("attributes"));
      }
      assert es[..i + 1] == es[..i] + [es[i]];
      RecordsAppend(s, es[..i], [es[i]]);
      out := out + [Build(s, es[i])];
      i := i + 1;
    }
    assert es[..i] == es;
    return Ok(out);
  }

  method GetTigerGraphData(vertexTypes: seq<string>, edgeTypes: seq<string>, reply: HttpReply)
    returns (request: string, r: Result<Graph, Failure>)
    ensures request == Proxy + "/getVertexEdgeData?" + VertexSegment(vertexTypes) + EdgeSegment(edgeTypes)
    ensures r == SeedData(reply)
  {
    var query := QueryString(vertexTypes, edgeTypes);
    request := Proxy + "/getVertexEdgeData?" + query;
    if !reply.ok {
      return request, Err(HttpStatus(reply.status));
    }
    var lists := SeedLists(reply.body);
    if lists.Err? {
      return request, Err(lists.error);
    }
    var nodes := PushAll(Vertex, Entries(lists.value.0));
    if nodes.Err? {
      return request, Err(nodes.error);
    }
    var links := PushAll(Edge, Entries(lists.value.1));
    if links.Err? {
      return request, Err(links.error);
    }
    r := Ok(Graph(nodes.value, links.value));
  }

  /** The error flag is checked before `Res` is read: a flagged reply is rejected with
      its message whatever else it holds. */
  lemma SeedErrorFlagFirst(reply: HttpReply)
    requires reply.ok && reply.body.Obj? && Truthy(Field(reply.body, "error"))
    ensures SeedData(reply) == Err(ServerError(ShowValue(Field(reply.body, "message"))))
  {
  }

  /** On success there is one node per seed vertex and one link per edge, in input order. */
  lemma SeedKeepsEveryRecord(reply: HttpReply)
    requires SeedData(reply).Ok?
    ensures reply.ok && SeedLists(reply.body).Ok?
    ensures var (seed, edges) := SeedLists(reply.body).value;
      var g := SeedData(reply).value;
      && |g.nodes| == |Entries(seed)|
      && (forall i :: 0 <= i < |g.nodes| ==> g.nodes[i] == MakeNode(Entries(seed)[i]))
      && |g.links| == |Entries(edges)|
      && (forall i :: 0 <= i < |g.links| ==> g.links[i] == MakeLink(Entries(edges)[i]))
  {
  }

  // ---------------------------------------------------------------------------
  // The dual prefix scan of runInterpretedQuery and runQuery

  /** Appends the records of the elements a scan took to `acc`; a failure passes through. */
  function Emit(s: Shape, acc: seq<Record>, taken: Result<seq<Json>, Failure>): Result<seq<Record>, Failure> {
    match taken
    case Err(f) => Err(f)
    case Ok(t) => Ok(acc + Records(s, t))
  }

  /** The scan from element `i` on: a null element throws, a mismatch stops it, and a
      matching element is taken before the scan of the rest. */
  lemma PrefixScanFrom(s: Shape, es: seq<Json>, i: nat)
    requires i < |es|
    ensures es[i] == Null ==> PrefixScan(s, es[i..]) == Err(TypeError(GuardKey(s)))
    ensures es[i] != Null && !Matches(s, es[i]) ==> PrefixScan(s, es[i..]) == Ok([])
    ensures es[i] != Null && Matches(s, es[i]) ==>
      Prefixed(es[..i], PrefixScan(s, es[i..])) == Prefixed(es[..i + 1], PrefixScan(s, es[i + 1..]))
  {
    assert es[i..][0] == es[i] && es[i..][1..] == es[i + 1..];
    assert es[..i + 1] == es[..i] + [es[i]];
    PrefixedTwice(es[..i], [es[i]], PrefixScan(s, es[i + 1..]));
  }

  /** One scan of a group, pushing onto `acc` until the first element failing the guard. */
  method PushPrefix(s: Shape, es: seq<Json>, acc: seq<Record>) returns (r: Result<seq<Record>, Failure>)
    ensures r == Emit(s, acc, PrefixScan(s, es))
  {
    var out := acc;
    var i := 0;
    assert es[0..] == es;
    PrefixedEmpty(PrefixScan(s, es));
    while i < |es|
      invariant 0 <= i <= |es|
      invariant PrefixScan(s, es) == Prefixed(es[..i], PrefixScan(s, es[i..]))
      invariant out == acc + Records(s, es[..i])
    {
      PrefixScanFrom(s, es, i);
      if es[i] == Null {
        return Err(TypeError(GuardKey(s)));
      }
      if !Matches(s, es[i]) {
        break;
      }
      PushRecordsTwice(s, acc, es[..i], [es[i]]);
      RecordsSingle(s, es[i]);
      assert es[..i + 1] == es[..i] + [es[i]];
      out := out + [Build(s, es[i])];
      i := i + 1;
    }
    if i == |es| {
      assert es[i..] == [];
    }
    assert es[..i] + [] == es[..i];
    return Ok(out);
  }

  /** The body of the inner loop: the vertex scan of one group onto `nodes`, then the
      edge scan of the same group onto `links`. */
  method ScanGroupInto(g: Json, nodes: seq<Record>, links: seq<Record>) returns (r: Result<Graph, Failure>)
    ensures r == Extend(Graph(nodes, links), SelectGroup(g))
  {
    var group := Entries(Some(g));
    var vr := PushPrefix(Vertex, group, nodes);
    if vr.Err? {
      return Err(vr.error);
    }
    var lr := PushPrefix(Edge, group, links);
    if lr.Err? {
      return Err(lr.error);
    }
    r := Ok(Graph(vr.value, lr.value));
  }

  /** The inner loop `for (key in data[res])` over the groups of one result. */
  method ScanGroupsInto(groups: seq<Json>, nodes: seq<Record>, links: seq<Record>) returns (r: Result<Graph, Failure>)
    ensures r == Extend(Graph(nodes, links), SelectGroups(groups))
  {
    var g := Graph(nodes, links);
    var j := 0;
    assert Records(Vertex, []) == [] && Records(Edge, []) == [];
    assert nodes + [] == nodes && links + [] == links;
    assert SelectGroups(groups[..0]) == Ok(Selection([], []));
    while j < |groups|
      invariant 0 <= j <= |groups|
      invariant Extend(Graph(nodes, links), SelectGroups(groups[..j])) == Ok(g)
    {
      SelectGroupsStep(groups, j);
      ExtendThen(Graph(nodes, links), SelectGroups(groups[..j]), SelectGroup(groups[j]));
      var step := ScanGroupInto(groups[j], g.nodes, g.links);
      if step.Err? {
        SelectGroupsFailureIsFinal(groups, j + 1);
        return step;
      }
      g := step.value;
      j := j + 1;
    }
    assert groups[..j] == groups;
    r := Ok(g);
  }

  /** `for (res in data) for (key in data[res])`: scan each group for vertices, then the
      same group for edges. */
  method ScanResults(data: Value) returns (r: Result<Graph, Failure>)
    ensures r == Scan(data)
  {
    var results := Entries(data);
    var g := Graph([], []);
    var i := 0;
    assert results[..0] == [];
    while i < |results|
      invariant 0 <= i <= |results|
      invariant Extend(Graph([], []), SelectGroups(GroupsOf(results[..i]))) == Ok(g)
    {
      var groups := Entries(Some(results[i]));
      GroupsOfStep(results, i);
      ExtendThen(Graph([], []), SelectGroups(GroupsOf(results[..i])), SelectGroups(groups));
      var step := ScanGroupsInto(groups, g.nodes, g.links);
      if step.Err? {
        GroupsOfFailureIsFinal(results, i + 1);
        return step;
      }
      g := step.value;
      i := i + 1;
    }
    assert results[..i] == results;
    r := Ok(g);
  }

  // ---------------------------------------------------------------------------
  // runInterpretedQuery

  /** The interpreted-query text: the body can be read back between " { " and " }". */
  function InterpretedQuery(graphname: string, body: string): (q: string)
    ensures |q| == 34 + |graphname| + |body|
    ensures q[..29] == "INTERPRET QUERY () FOR GRAPH "
    ensures q[29..29 + |graphname|] == graphname
    ensures q[29 + |graphname|..32 + |graphname|] == " { "
    ensures q[32 + |graphname|..|q| - 2] == body
    ensures q[|q| - 2..] == " }"
  {
    "INTERPRET QUERY () FOR GRAPH " + graphname + " { " + body + " }"
  }

  /** What runInterpretedQuery resolves or rejects with: both nodes and links are required. */
  function InterpretedResult(reply: HttpReply): Result<Graph, Failure> {
    if !reply.ok then Err(HttpStatus(reply.status))
    else
      var body :- ServerCheck(reply.body);
      var results :- Get(Some(body), "results");
      var g :- Scan(results);
      if |g.nodes| == 0 then Err(NoVertices)
      else if |g.links| == 0 then Err(NoEdges)
      else Ok(g)
  }

  /** POSTs the interpreted-query text to the proxy's `/interpretedQuery` endpoint. */
  method RunInterpretedQuery(conn: Connection, query: string, reply: HttpReply)
    returns (request: string, payload: string, r: Result<Graph, Failure>)
    ensures request == Proxy + "/interpretedQuery"
    ensures payload == InterpretedQuery(conn.graphname, query)
    ensures r == InterpretedResult(reply)
  {
    request := Proxy + "/interpretedQuery";
    payload := "INTERPRET QUERY () FOR GRAPH " + conn.graphname + " { " + query + " }";
    if !reply.ok {
      return request, payload, Err(HttpStatus(reply.status));
    }
    var checked := ServerCheck(reply.body);
    if checked.Err? {
      return request, payload, Err(checked.error);
    }
    var results := Get(Some(checked.value), "results");
    if results.Err? {
      return request, payload, Err(results.error);
    }
    var scanned := ScanResults(results.value);
    if scanned.Err? {
      return request, payload, Err(scanned.error);
    }
    var g := scanned.value;
    if |g.nodes| == 0 {
      r := Err(NoVertices);
    } else if |g.links| == 0 {
      r := Err(NoEdges);
    } else {
      r := Ok(g);
    }
  }

  /** The error flag is checked before `results` is read. */
  lemma InterpretedErrorFlagFirst(reply: HttpReply)
    requires reply.ok && reply.body.Obj? && Truthy(Field(reply.body, "error"))
    ensures InterpretedResult(reply) == Err(ServerError(ShowValue(Field(reply.body, "message"))))
  {
  }

  /** The strict rule: a result always has nodes and links, exactly those scanned; no
      nodes is reported before no links. */
  lemma InterpretedNeedsBoth(reply: HttpReply)
    requires reply.ok && ServerCheck(reply.body).Ok?
    requires Scan(Field(reply.body, "results")).Ok?
    ensures var g := Scan(Field(reply.body, "results")).value;
      InterpretedResult(reply) ==
        if |g.nodes| == 0 then Err(NoVertices)
        else if |g.links| == 0 then Err(NoEdges)
        else Ok(g)
  {
    assert ServerCheck(reply.body) == Ok(reply.body);
    assert Get(Some(reply.body), "results") == Ok(Field(reply.body, "results"));
  }

  // ---------------------------------------------------------------------------
  // runQuery

  function RecordGet(r: Record, key: string): Value {
    if key in r then Some(r[key]) else None
  }

  /** The node runQuery synthesises for a link's source end. It reads `from_type` and
      `from_id` from the built link, which has them only if the edge's attributes did. */
  function FromEndpoint(link: Record): Record {
    var ty, id := RecordGet(link, "from_type"), RecordGet(link, "from_id");
    map["id" := Str(Tag(ty, id)), "v_id" := Str(ShowValue(id)), "v_type" := Str(ShowValue(ty))]
  }

  /** The node runQuery synthesises for a link's target end, read the same way. */
  function ToEndpoint(link: Record): Record {
    var ty, id := RecordGet(link, "to_type"), RecordGet(link, "to_id");
    map["id" := Str(Tag(ty, id)), "v_id" := Str(ShowValue(id)), "v_type" := Str(ShowValue(ty))]
  }

  /** The endpoint nodes of a link built from edge `e` take their types and ids from
      the edge's `attributes`, never from the edge's own `from_type`/`from_id`/`to_type`/
      `to_id`. */
  lemma EndpointsComeFromAttributes(e: Json)
    ensures var attrs, link := Spread(Field(e, "attributes")), MakeLink(e);
      FromEndpoint(link) == FromEndpoint(attrs) && ToEndpoint(link) == ToEndpoint(attrs)
  {
    var attrs, link := Spread(Field(e, "attributes")), MakeLink(e);
    LinkFields(e);
    assert RecordGet(link, "from_type") == RecordGet(attrs, "from_type");
    assert RecordGet(link, "from_id") == RecordGet(attrs, "from_id");
    assert RecordGet(link, "to_type") == RecordGet(attrs, "to_type");
    assert RecordGet(link, "to_id") == RecordGet(attrs, "to_id");
  }

  /** An edge without `attributes` still yields a link with the right `source` and
      `target`, yet both endpoint nodes runQuery synthesises for it have id
      "undefined_undefined". */
  lemma EdgeWithoutAttributesHasUndefinedEndpoints(e: Json)
    requires Field(e, "attributes").None?
    ensures var link := MakeLink(e);
      && link["source"] == Str(Tag(Field(e, "from_type"), Field(e, "from_id")))
      && link["target"] == Str(Tag(Field(e, "to_type"), Field(e, "to_id")))
      && FromEndpoint(link)["id"] == Str("undefined_undefined")
      && ToEndpoint(link)["id"] == Str("undefined_undefined")
  {
    var attrs := Spread(Field(e, "attributes"));
    assert attrs == map[];
    assert RecordGet(attrs, "from_type") == None && RecordGet(attrs, "from_id") == None;
    assert RecordGet(attrs, "to_type") == None && RecordGet(attrs, "to_id") == None;
    assert Tag(None, None) == "undefined_undefined";
    LinkFields(e);
    EndpointsComeFromAttributes(e);
  }

  /** Two nodes per link, source end then target end, in link order, duplicates kept. */
  function EndpointNodes(links: seq<Record>): (ns: seq<Record>)
    ensures |ns| == 2 * |links|
  {
    if links == [] then []
    else
      var last := links[|links| - 1];
      EndpointNodes(links[..|links| - 1]) + [FromEndpoint(last), ToEndpoint(last)]
  }

  /** Node `2i` is the source end of link `i` and node `2i + 1` its target end. */
  lemma {:induction false} EndpointNodesPairs(links: seq<Record>)
    ensures var ns := EndpointNodes(links);
      forall i :: 0 <= i < |links| ==>
        ns[2 * i] == FromEndpoint(links[i]) && ns[2 * i + 1] == ToEndpoint(links[i])
  {
    if links != [] {
      var init := links[..|links| - 1];
      EndpointNodesPairs(init);
      var ns := EndpointNodes(links);
      forall i | 0 <= i < |links|
        ensures ns[2 * i] == FromEndpoint(links[i]) && ns[2 * i + 1] == ToEndpoint(links[i])
      {
        if i < |init| {
          assert links[i] == init[i];
        }
      }
    }
  }

  /** The endpoint nodes of the first `i + 1` links extend those of the first `i`. */
  lemma EndpointNodesStep(links: seq<Record>, i: nat)
    requires i < |links|
    ensures EndpointNodes(links[..i + 1]) == EndpointNodes(links[..i]) + [FromEndpoint(links[i]), ToEndpoint(links[i])]
  {
    assert links[..i + 1][..i] == links[..i];
  }

  /** runQuery's lenient rule after the scan. */
  function Lenient(data: Json, g: Graph): QueryOutput {
    if |g.links| == 0 && |g.nodes| > 0 then Data(data)
    else if |g.nodes| == 0 && |g.links| > 0 then GraphOut(Graph(EndpointNodes(g.links), g.links))
    else if |g.nodes| == 0 && |g.links| == 0 then Data(if Truthy(Some(data)) then data else Str(""))
    else GraphOut(g)
  }

  /** `for (edge in links) { nodes.push(from endpoint); nodes.push(to endpoint) }`. */
  method PushEndpoints(links: seq<Record>, nodes: seq<Record>) returns (out: seq<Record>)
    ensures out == nodes + EndpointNodes(links)
  {
    out := nodes;
    var i := 0;
    assert links[..0] == [] && nodes + [] == nodes;
    while i < |links|
      invariant 0 <= i <= |links|
      invariant out == nodes + EndpointNodes(links[..i])
    {
      EndpointNodesStep(links, i);
      out := out + [FromEndpoint(links[i])];
      out := out + [ToEndpoint(links[i])];
      i := i + 1;
    }
    assert links[..i] == links;
  }

  method Settle(data: Json, g: Graph) returns (out: QueryOutput)
    ensures out == Lenient(data, g)
  {
    var nodes := g.nodes;
    if |g.links| == 0 && |nodes| > 0 {
      return Data(data);
    }
    if |nodes| == 0 && |g.links| > 0 {
      nodes := PushEndpoints(g.links, nodes);
      assert nodes == EndpointNodes(g.links);
    }
    if |nodes| == 0 && |g.links| == 0 {
      return Data(if Truthy(Some(data)) then data else Str(""));
    }
    out := GraphOut(Graph(nodes, g.links));
  }

  /** What runQuery resolves or rejects with for a given reply. */
  function InstalledResult(reply: HttpReply): Result<QueryOutput, Failure> {
    if !reply.ok then Err(HttpStatus(reply.status))
    else
      var g :- Scan(Some(reply.body));
      Ok(Lenient(reply.body, g))
  }

  method RunQuery(queryName: string, reply: HttpReply) returns (request: string, r: Result<QueryOutput, Failure>)
    ensures request == Proxy + "/installedQuery/" + queryName
    ensures r == InstalledResult(reply)
  {
    request := Proxy + "/installedQuery/" + queryName;
    if !reply.ok {
      return request, Err(HttpStatus(reply.status));
    }
    var scanned := ScanResults(Some(reply.body));
    if scanned.Err? {
      return request, Err(scanned.error);
    }
    var out := Settle(reply.body, scanned.value);
    r := Ok(out);
  }

  /** The four outcomes of runQuery after a successful scan. */
  lemma InstalledOutcomes(reply: HttpReply)
    requires reply.ok && Scan(Some(reply.body)).Ok?
    ensures var g := Scan(Some(reply.body)).value;
      var r := InstalledResult(reply);
      && (|g.nodes| > 0 && |g.links| == 0 ==> r == Ok(Data(reply.body)))
      && (|g.nodes| == 0 && |g.links| == 0 ==> r == Ok(Data(if Truthy(Some(reply.body)) then reply.body else Str(""))))
      && (|g.nodes| > 0 && |g.links| > 0 ==> r == Ok(GraphOut(g)))
      && (|g.nodes| == 0 && |g.links| > 0 ==>
            r == Ok(GraphOut(Graph(EndpointNodes(g.links), g.links))))
  {
  }

  // ---------------------------------------------------------------------------
  // getAllEdgeCount

  /** The running sum of per-type counts; the first failed count rejects the whole call. */
  function TotalCount(counts: seq<Result<int, Failure>>): (r: Result<int, Failure>)
    ensures r.Ok? <==> forall i :: 0 <= i < |counts| ==> counts[i].Ok?
    ensures r.Err? ==> exists k :: 0 <= k < |counts| && counts[k] == Err(r.error) &&
                                   forall i :: 0 <= i < k ==> counts[i].Ok?
  {
    if counts == [] then Ok(0)
    else
      var first :- counts[0];
      var rest := TotalCount(counts[1..]);
      assert rest.Err? ==> exists k :: 0 <= k < |counts| && counts[k] == Err(rest.error) &&
          forall i :: 0 <= i < k ==> counts[i].Ok? by {
        if rest.Err? {
          var k :| 0 <= k < |counts[1..]| && counts[1..][k] == Err(rest.error) &&
            forall i :: 0 <= i < k ==> counts[1..][i].Ok?;
          assert counts[k + 1] == Err(rest.error);
          forall i | 0 <= i < k + 1 ensures counts[i].Ok? {
            if i > 0 { assert counts[i] == counts[1..][i - 1]; }
          }
        }
      }
      assert rest.Ok? ==> forall i :: 0 <= i < |counts| ==> counts[i].Ok? by {
        if rest.Ok? {
          forall i | 0 <= i < |counts| ensures counts[i].Ok? {
            if i > 0 { assert counts[i] == counts[1..][i - 1]; }
          }
        }
      }
      var sum :- rest;
      Ok(first + sum)
  }

  /** Adds `n` to a successful count; a failure passes through. */
  function Plus(n: int, r: Result<int, Failure>): Result<int, Failure> {
    match r
    case Ok(m) => Ok(n + m)
    case Err(f) => Err(f)
  }

  /** The sum from count `i` on: a failed count there decides it, otherwise that count
      is added to the sum of the rest. */
  lemma TotalCountFrom(counts: seq<Result<int, Failure>>, i: nat)
    requires i < |counts|
    ensures counts[i].Err? ==> TotalCount(counts[i..]) == Err(counts[i].error)
    ensures counts[i].Ok? ==> TotalCount(counts[i..]) == Plus(counts[i].value, TotalCount(counts[i + 1..]))
  {
    assert counts[i..][0] == counts[i];
    assert counts[i..][1..] == counts[i + 1..];
  }

  /** `for (i in allEdges) sum += await getEdgeCount({EdgeType: allEdges[i]})`, where
      `counts[i]` is the proxy's answer for `edgeTypes[i]`. `asked` lists the edge types
      whose count was requested. */
  method GetAllEdgeCount(edgeTypes: seq<string>, counts: seq<Result<int, Failure>>)
    returns (asked: seq<string>, r: Result<int, Failure>)
    requires |counts| == |edgeTypes|
    ensures r == TotalCount(counts)
    ensures |asked| <= |edgeTypes| && asked == edgeTypes[..|asked|]
    ensures r.Ok? ==> asked == edgeTypes
    ensures r.Err? ==> |asked| > 0 && counts[|asked| - 1] == Err(r.error)
    ensures r.Err? ==> forall i :: 0 <= i < |asked| - 1 ==> counts[i].Ok?
  {
    var sum := 0;
    var i := 0;
    while i < |edgeTypes|
      invariant 0 <= i <= |edgeTypes|
      invariant forall j :: 0 <= j < i ==> counts[j].Ok?
      invariant TotalCount(counts) == Plus(sum, TotalCount(counts[i..]))
    {
      TotalCountFrom(counts, i);
      if counts[i].Err? {
        return edgeTypes[..i + 1], Err(counts[i].error);
      }
      sum := sum + counts[i].value;
      i := i + 1;
    }
    assert counts[i..] == [];
    return edgeTypes, Ok(sum);
  }
}
