/** The node and link records handed to the visualisation layer, how they are
    synthesised from vertex and edge records, and what the shared "dual prefix scan"
    of a query response produces. */
module GraphRecords {
  import opened Outcomes
  import opened JsValues

  /** A node or link: an open-ended mapping from property name to value. */
  type Record = map<string, Json>

  datatype Graph = Graph(nodes: seq<Record>, links: seq<Record>)

  /** `${type}_${id}`: the id of a node, and the endpoints of a link. */
  function Tag(ty: Value, id: Value): string {
    ShowValue(ty) + "_" + ShowValue(id)
  }

  /** The node built from a vertex record: its `attributes` spread first, then `id`,
      `v_id` and `v_type` rendered as strings. */
  function MakeNode(e: Json): Record {
    var vt, vid := Field(e, "v_type"), Field(e, "v_id");
    Spread(Field(e, "attributes")) +
      map["id" := Str(Tag(vt, vid)), "v_id" := Str(ShowValue(vid)), "v_type" := Str(ShowValue(vt))]
  }

  /** The link built from an edge record: its `attributes` spread first, then `source`
      and `target`. */
  function MakeLink(e: Json): Record {
    Spread(Field(e, "attributes")) +
      map["source" := Str(Tag(Field(e, "from_type"), Field(e, "from_id"))),
          "target" := Str(Tag(Field(e, "to_type"), Field(e, "to_id")))]
  }

  /** A node's `id` is `${v_type}_${v_id}`, `v_id` and `v_type` are their renderings as
      strings and win over attributes of the same name; every other attribute is kept. */
  lemma NodeFields(e: Json)
    ensures var n := MakeNode(e);
      && "id" in n && n["id"] == Str(Tag(Field(e, "v_type"), Field(e, "v_id")))
      && "v_id" in n && n["v_id"] == Str(ShowValue(Field(e, "v_id")))
      && "v_type" in n && n["v_type"] == Str(ShowValue(Field(e, "v_type")))
    ensures var n, attrs := MakeNode(e), Spread(Field(e, "attributes"));
      forall k :: k != "id" && k != "v_id" && k != "v_type" ==>
        (k in n <==> k in attrs) && (k in n ==> n[k] == attrs[k])
  {
  }

  /** A link's `source` and `target` are `${from_type}_${from_id}` and
      `${to_type}_${to_id}` and win over attributes of the same name; every other
      attribute is kept. */
  lemma LinkFields(e: Json)
    ensures var l := MakeLink(e);
      && "source" in l && l["source"] == Str(Tag(Field(e, "from_type"), Field(e, "from_id")))
      && "target" in l && l["target"] == Str(Tag(Field(e, "to_type"), Field(e, "to_id")))
    ensures var l, attrs := MakeLink(e), Spread(Field(e, "attributes"));
      forall k :: k != "source" && k != "target" ==>
        (k in l <==> k in attrs) && (k in l ==> l[k] == attrs[k])
  {
  }

  /** The two readings of one result group. */
  datatype Shape = Vertex | Edge

  /** The property whose read comes first in a scan's guard, and throws on null. */
  function GuardKey(s: Shape): string {
    match s
    case Vertex => "v_type"
    case Edge => "from_type"
  }

  /** The scan guard: a vertex carries `v_type` and `v_id`, an edge `from_type` and
      `to_type` (its ids may be missing). */
  predicate Matches(s: Shape, e: Json) {
    match s
    case Vertex => Field(e, "v_type").Some? && Field(e, "v_id").Some?
    case Edge => Field(e, "from_type").Some? && Field(e, "to_type").Some?
  }

  function Build(s: Shape, e: Json): Record {
    match s
    case Vertex => MakeNode(e)
    case Edge => MakeLink(e)
  }

  /** The records built from the given elements, one per element, in order. */
  function Records(s: Shape, es: seq<Json>): (rs: seq<Record>)
    ensures |rs| == |es|
  {
    seq(|es|, i requires 0 <= i < |es| => Build(s, es[i]))
  }

  lemma RecordsSingle(s: Shape, e: Json)
    ensures Records(s, [e]) == [Build(s, e)]
  {
  }

  lemma RecordsAppend(s: Shape, a: seq<Json>, b: seq<Json>)
    ensures Records(s, a + b) == Records(s, a) + Records(s, b)
  {
    assert forall i :: 0 <= i < |a| ==> (a + b)[i] == a[i];
    assert forall i :: |a| <= i < |a + b| ==> (a + b)[i] == b[i - |a|];
  }

  /** Puts `pre` in front of a successful list; a failure passes through. */
  function Prefixed<T>(pre: seq<T>, r: Result<seq<T>, Failure>): Result<seq<T>, Failure> {
    match r
    case Ok(xs) => Ok(pre + xs)
    case Err(f) => Err(f)
  }

  lemma PrefixedEmpty<T>(r: Result<seq<T>, Failure>)
    ensures Prefixed([], r) == r
  {
    if r.Ok? {
      assert [] + r.value == r.value;
    }
  }

  lemma PrefixedTwice<T>(a: seq<T>, b: seq<T>, r: Result<seq<T>, Failure>)
    ensures Prefixed(a, Prefixed(b, r)) == Prefixed(a + b, r)
  {
    if r.Ok? {
      assert a + (b + r.value) == (a + b) + r.value;
    }
  }

  /** The elements one scan of a group turns into records: it pushes one per element
      until the first element failing the guard (`break`); reading the guard of a null
      element reached before that throws. */
  function PrefixScan(s: Shape, es: seq<Json>): Result<seq<Json>, Failure> {
    if es == [] then Ok([])
    else if es[0] == Null then Err(TypeError(GuardKey(s)))
    else if !Matches(s, es[0]) then Ok([])
    else Prefixed([es[0]], PrefixScan(s, es[1..]))
  }

  /** A scan takes exactly the longest prefix of matching elements, and fails exactly
      when the element that ends that prefix is null. */
  lemma {:induction false} PrefixScanIsLongestPrefix(s: Shape, es: seq<Json>)
    ensures var r := PrefixScan(s, es);
      r.Ok? ==>
        && |r.value| <= |es|
        && r.value == es[..|r.value|]
        && (forall i :: 0 <= i < |r.value| ==> Matches(s, es[i]))
        && (|r.value| < |es| ==> !Matches(s, es[|r.value|]) && es[|r.value|] != Null)
    ensures var r := PrefixScan(s, es);
      r.Err? ==>
        && r.error == TypeError(GuardKey(s))
        && exists k :: 0 <= k < |es| && es[k] == Null && forall i :: 0 <= i < k ==> Matches(s, es[i])
  {
    if es != [] && es[0] != Null && Matches(s, es[0]) {
      var tail := es[1..];
      PrefixScanIsLongestPrefix(s, tail);
      var rest := PrefixScan(s, tail);
      if rest.Err? {
        var k :| 0 <= k < |tail| && tail[k] == Null && forall i :: 0 <= i < k ==> Matches(s, tail[i]);
        assert es[k + 1] == Null;
        forall i | 0 <= i < k + 1 ensures Matches(s, es[i]) {
          if i > 0 { assert es[i] == tail[i - 1]; }
        }
      } else {
        var taken := [es[0]] + rest.value;
        assert taken == es[..|taken|];
        forall i | 0 <= i < |taken| ensures Matches(s, es[i]) {
          if i > 0 { assert es[i] == tail[i - 1]; }
        }
      }
    }
  }

  /** The elements both scans of a group, or of a run of groups, take. */
  datatype Selection = Selection(vertices: seq<Json>, edges: seq<Json>)

  /** Both scans of one group: vertices first, then edges, over the same elements. */
  function SelectGroup(g: Json): Result<Selection, Failure> {
    var es := Entries(Some(g));
    var vs :- PrefixScan(Vertex, es);
    var ls :- PrefixScan(Edge, es);
    Ok(Selection(vs, ls))
  }

  function Join(a: Selection, b: Selection): Selection {
    Selection(a.vertices + b.vertices, a.edges + b.edges)
  }

  /** Two scans run one after the other: the first failure is the one reported,
      otherwise what the first takes comes before what the second takes. */
  function Then(first: Result<Selection, Failure>, second: Result<Selection, Failure>): Result<Selection, Failure> {
    match first
    case Err(f) => Err(f)
    case Ok(a) =>
      match second
      case Err(f) => Err(f)
      case Ok(b) => Ok(Join(a, b))
  }

  /** Scans the groups in order, stopping at the first failure. */
  function SelectGroups(gs: seq<Json>): Result<Selection, Failure> {
    if gs == [] then Ok(Selection([], []))
    else Then(SelectGroups(gs[..|gs| - 1]), SelectGroup(gs[|gs| - 1]))
  }

  /** The keyed groups of a sequence of results, results first, then keys. */
  function GroupsOf(results: seq<Json>): seq<Json> {
    if results == [] then []
    else GroupsOf(results[..|results| - 1]) + Entries(Some(results[|results| - 1]))
  }

  /** The graph both query runners build with `for (res in data) for (key in data[res])`
      before their own decision rules. */
  function Scan(data: Value): Result<Graph, Failure> {
    Extend(Graph([], []), SelectGroups(GroupsOf(Entries(data))))
  }

  /** Appends the records of a selection to a graph; a failure passes through. */
  function Extend(g: Graph, r: Result<Selection, Failure>): Result<Graph, Failure> {
    match r
    case Err(f) => Err(f)
    case Ok(sel) => Ok(Graph(g.nodes + Records(Vertex, sel.vertices), g.links + Records(Edge, sel.edges)))
  }

  /** Pushing the records of `a` and then those of `b` onto `base`. */
  lemma PushRecordsTwice(s: Shape, base: seq<Record>, a: seq<Json>, b: seq<Json>)
    ensures base + Records(s, a + b) == (base + Records(s, a)) + Records(s, b)
  {
    RecordsAppend(s, a, b);
    assert base + (Records(s, a) + Records(s, b)) == (base + Records(s, a)) + Records(s, b);
  }

  /** Extending by two selections in turn is extending by what they select together. */
  lemma ExtendThen(g: Graph, x: Result<Selection, Failure>, y: Result<Selection, Failure>)
    requires Extend(g, x).Ok?
    ensures Extend(g, Then(x, y)) == Extend(Extend(g, x).value, y)
  {
    if y.Ok? {
      var a, b := x.value, y.value;
      PushRecordsTwice(Vertex, g.nodes, a.vertices, b.vertices);
      PushRecordsTwice(Edge, g.links, a.edges, b.edges);
      assert Then(x, y) == Ok(Join(a, b));
    }
  }

  lemma ThenAssociative(x: Result<Selection, Failure>, y: Result<Selection, Failure>, z: Result<Selection, Failure>)
    ensures Then(Then(x, y), z) == Then(x, Then(y, z))
  {
    if x.Ok? && y.Ok? && z.Ok? {
      assert Join(Join(x.value, y.value), z.value) == Join(x.value, Join(y.value, z.value));
    }
  }

  /** Scanning a run of groups one group further. */
  lemma SelectGroupsStep(gs: seq<Json>, j: nat)
    requires j < |gs|
    ensures SelectGroups(gs[..j + 1]) == Then(SelectGroups(gs[..j]), SelectGroup(gs[j]))
  {
    assert gs[..j + 1][..j] == gs[..j];
  }

  /** A failure after the first `j` groups is the failure of the whole run. */
  lemma SelectGroupsFailureIsFinal(gs: seq<Json>, j: nat)
    requires j <= |gs| && SelectGroups(gs[..j]).Err?
    ensures SelectGroups(gs) == SelectGroups(gs[..j])
  {
    assert gs == gs[..j] + gs[j..];
    SelectGroupsAppend(gs[..j], gs[j..]);
  }

  /** Scanning a run of results one result further. */
  lemma GroupsOfStep(results: seq<Json>, i: nat)
    requires i < |results|
    ensures SelectGroups(GroupsOf(results[..i + 1])) ==
      Then(SelectGroups(GroupsOf(results[..i])), SelectGroups(Entries(Some(results[i]))))
  {
    assert results[..i + 1][..i] == results[..i];
    SelectGroupsAppend(GroupsOf(results[..i]), Entries(Some(results[i])));
  }

  /** A failure after the first `i` results is the failure of the whole scan. */
  lemma GroupsOfFailureIsFinal(results: seq<Json>, i: nat)
    requires i <= |results| && SelectGroups(GroupsOf(results[..i])).Err?
    ensures SelectGroups(GroupsOf(results)) == SelectGroups(GroupsOf(results[..i]))
  {
    assert results == results[..i] + results[i..];
    GroupsOfAppend(results[..i], results[i..]);
    SelectGroupsAppend(GroupsOf(results[..i]), GroupsOf(results[i..]));
  }

  /** Scanning two runs of groups one after the other: what the first run takes comes
      first, and a failure in the first run is the one reported. */
  lemma {:induction false} SelectGroupsAppend(a: seq<Json>, b: seq<Json>)
    ensures SelectGroups(a + b) == Then(SelectGroups(a), SelectGroups(b))
  {
    if b == [] {
      assert a + b == a;
      if SelectGroups(a).Ok? {
        assert Join(SelectGroups(a).value, Selection([], [])) == SelectGroups(a).value;
      }
    } else {
      var b' := b[..|b| - 1];
      assert (a + b)[..|a + b| - 1] == a + b';
      assert (a + b)[|a + b| - 1] == b[|b| - 1];
      SelectGroupsAppend(a, b');
      ThenAssociative(SelectGroups(a), SelectGroups(b'), SelectGroup(b[|b| - 1]));
    }
  }

  lemma {:induction false} GroupsOfAppend(a: seq<Json>, b: seq<Json>)
    ensures GroupsOf(a + b) == GroupsOf(a) + GroupsOf(b)
  {
    if b == [] {
      assert a + b == a;
    } else {
      var b' := b[..|b| - 1];
      var last := Entries(Some(b[|b| - 1]));
      assert (a + b)[..|a + b| - 1] == a + b';
      assert (a + b)[|a + b| - 1] == b[|b| - 1];
      assert GroupsOf(a + b) == GroupsOf(a + b') + last;
      GroupsOfAppend(a, b');
      assert GroupsOf(b) == GroupsOf(b') + last;
      assert (GroupsOf(a) + GroupsOf(b')) + last == GroupsOf(a) + (GroupsOf(b') + last);
    }
  }

  /** One element carrying both shapes' fields yields a node and a link: the two scans
      of a group are independent. */
  lemma BothShapesFromOneElement(e: Json)
    requires Matches(Vertex, e) && Matches(Edge, e)
    ensures SelectGroup(Arr([e])) == Ok(Selection([e], [e]))
  {
    assert Entries(Some(Arr([e]))) == [e];
    assert [e][1..] == [];
    assert e != Null;
    assert PrefixScan(Vertex, []) == Ok([]) && PrefixScan(Edge, []) == Ok([]);
    assert [e] + [] == [e];
    assert PrefixScan(Vertex, [e]) == Ok([e]);
    assert PrefixScan(Edge, [e]) == Ok([e]);
  }

  /** A group that is neither an array nor an object (a string, a number, a boolean,
      null) adds neither nodes nor links: its enumerated entries, if any, are
      single-character strings, which carry no fields. */
  lemma NonCollectionGroupAddsNothing(g: Json)
    requires !g.Arr? && !g.Obj?
    ensures SelectGroup(g) == Ok(Selection([], []))
  {
    var es := Entries(Some(g));
    if es != [] {
      assert g.Str? && es[0] == Str([g.s[0]]);
      assert !Matches(Vertex, es[0]) && !Matches(Edge, es[0]);
    }
  }

  /** Output order is results order, then key order within a result: scanning the
      results `a + b` scans all groups of `a` before any group of `b`. */
  lemma ScanOrderIsResultsThenKeys(a: seq<Json>, b: seq<Json>)
    ensures SelectGroups(GroupsOf(a + b)) == Then(SelectGroups(GroupsOf(a)), SelectGroups(GroupsOf(b)))
  {
    GroupsOfAppend(a, b);
    SelectGroupsAppend(GroupsOf(a), GroupsOf(b));
  }

  /** A malformed element ends the scan even when well-formed elements follow it. */
  lemma ScanStopsAtFirstMismatch(s: Shape, es: seq<Json>, k: nat)
    requires k < |es| && es[k] != Null && !Matches(s, es[k])
    requires forall i :: 0 <= i < k ==> Matches(s, es[i])
    ensures PrefixScan(s, es) == Ok(es[..k])
  {
    PrefixScanIsLongestPrefix(s, es);
    var r := PrefixScan(s, es);
    assert r.Ok?;
    assert |r.value| == k;
  }
}
