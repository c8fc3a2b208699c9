/**
 * The post-processing of `GraphRetriever.execute_raw_cypher`: the records a
 * Cypher query returns become waiver nodes, one `LOCATED_IN` edge per node and
 * one `HAS_THEME` edge per theme dictionary with a name. The query itself is an
 * input: its records, or a failure.
 */
module Retriever {
  import opened Wrappers

  /** The `app` node of a record, as far as it is read. */
  datatype AppNode = AppNode(applicationNumber: Option<string>, programTitle: Option<string>)

  /**
   * The `app` entry of a record as `r.get("app", {})` sees it: no such key (the
   * default `{}`), a node dictionary, or any other value, `None` included, which
   * has no `.get` and so raises `AttributeError`.
   */
  datatype AppEntry = NoApp | AppDict(node: AppNode) | AppOther

  /**
   * One element of a record's `themes` list: a dictionary whose values are
   * strings or `None`, or any other value.
   */
  datatype ThemeItem = ThemeDict(fields: map<string, Option<string>>) | OtherItem

  /**
   * The aliases a record may carry. For every field but `app`, `None` is an
   * absent key or a `None` value: `r.get(...)` gives `None` for both.
   */
  datatype Record = Record(
    waiverId: Option<string>,
    app: AppEntry,
    title: Option<string>,
    state: Option<string>,
    themes: Option<seq<ThemeItem>>,
    score: Option<real>)

  /** What `session.run` gives: the records, or an exception. */
  datatype QueryOutcome = QueryFailed | Records(records: seq<Record>)

  datatype Node = Node(id: string, title: string, state: string, themes: seq<ThemeItem>, score: real)

  datatype EdgeKind = LocatedIn | HasTheme

  /** An edge; its target is `None` for a theme whose `"name"` is `None`. */
  datatype Edge = Edge(from: string, to: Option<string>, kind: EdgeKind)

  const UnknownId := "unknown_id"

  /** Python's `a or b` on optional strings: an absent or empty value is falsy. */
  function Or(a: Option<string>, b: string): (r: string)
    ensures (a.Some? && a.value != "") ==> r == a.value
    ensures (a.None? || a.value == "") ==> r == b
  {
    if a.Some? && a.value != "" then a.value else b
  }

  /** A value Python's `or` passes over: absent, `None` or empty. */
  predicate Falsy(a: Option<string>) {
    a.None? || a.value == ""
  }

  /**
   * `r.get("waiver_id") or r.get("app", {}).get("applicationNumber") or "unknown_id"`,
   * for a record that does not raise.
   */
  function WaiverId(r: Record): string {
    Or(r.waiverId, Or(if r.app.AppDict? then r.app.node.applicationNumber else None, UnknownId))
  }

  /** `r.get("title") or r.get("app", {}).get("programTitle") or "Untitled"`, for a record that does not raise. */
  function Title(r: Record): string {
    Or(r.title, Or(if r.app.AppDict? then r.app.node.programTitle else None, "Untitled"))
  }

  /**
   * A record raises `AttributeError` when the id or the title falls through to
   * `.get` on an `app` entry that is not a dictionary.
   */
  predicate Raises(r: Record) {
    r.app.AppOther? && (Falsy(r.waiverId) || Falsy(r.title))
  }

  /** `r.get("state") or "Unknown State"` */
  function State(r: Record): string {
    Or(r.state, "Unknown State")
  }

  /** `r.get("themes") or []` */
  function ThemesOf(r: Record): seq<ThemeItem> {
    if r.themes.Some? then r.themes.value else []
  }

  /** `r.get("score") or 0` */
  function Score(r: Record): real {
    if r.score.Some? then r.score.value else 0.0
  }

  /** A theme gets an edge when it is a dictionary with a `"name"` key. */
  predicate NamedTheme(t: ThemeItem) {
    t.ThemeDict? && "name" in t.fields
  }

  /** The node of a record, when its id is not `"unknown_id"`. */
  function NodeStep(r: Record): seq<Node> {
    var wid := WaiverId(r);
    if wid != UnknownId then [Node(wid, Title(r), State(r), ThemesOf(r), Score(r))] else []
  }

  /** The `HAS_THEME` edges from `wid`, one per named theme, in list order. */
  function ThemeEdges(wid: string, themes: seq<ThemeItem>): seq<Edge>
    decreases |themes|
  {
    if themes == [] then []
    else
      var t := themes[|themes| - 1];
      ThemeEdges(wid, themes[..|themes| - 1]) + (if NamedTheme(t) then [Edge(wid, t.fields["name"], HasTheme)] else [])
  }

  /** The edges of a record: its `LOCATED_IN` edge, then its theme edges. */
  function EdgeStep(r: Record): seq<Edge> {
    var wid := WaiverId(r);
    if wid != UnknownId then [Edge(wid, Some(State(r)), LocatedIn)] + ThemeEdges(wid, ThemesOf(r)) else []
  }

  function Nodes(records: seq<Record>): seq<Node>
    decreases |records|
  {
    if records == [] then [] else Nodes(records[..|records| - 1]) + NodeStep(records[|records| - 1])
  }

  function Edges(records: seq<Record>): seq<Edge>
    decreases |records|
  {
    if records == [] then [] else Edges(records[..|records| - 1]) + EdgeStep(records[|records| - 1])
  }

  /** The result dictionary `{"nodes": ..., "edges": ...}`. */
  datatype Subgraph = Subgraph(nodes: seq<Node>, edges: seq<Edge>)

  /**
   * What the call does: it returns a subgraph, or the `AttributeError` of a
   * record escapes it (the records loop is outside the `try`).
   */
  datatype CypherResult = Returned(graph: Subgraph) | RaisedAttributeError

  /** Some record of the list raises. */
  predicate SomeRecordRaises(records: seq<Record>)
    decreases |records|
  {
    records != [] && (SomeRecordRaises(records[..|records| - 1]) || Raises(records[|records| - 1]))
  }

  /** The outcome of a query: the empty subgraph when the query raised, the error when a record raises. */
  function SubgraphOf(q: QueryOutcome): CypherResult {
    match q
    case QueryFailed => Returned(Subgraph([], []))
    case Records(records) =>
      if SomeRecordRaises(records) then RaisedAttributeError else Returned(Subgraph(Nodes(records), Edges(records)))
  }

  lemma NodesPrefix(records: seq<Record>, i: nat)
    requires i < |records|
    ensures Nodes(records[..i + 1]) == Nodes(records[..i]) + NodeStep(records[i])
    ensures Edges(records[..i + 1]) == Edges(records[..i]) + EdgeStep(records[i])
    ensures SomeRecordRaises(records[..i + 1]) == (SomeRecordRaises(records[..i]) || Raises(records[i]))
  {
    assert records[..i + 1][..i] == records[..i];
  }

  lemma ThemeEdgesPrefix(wid: string, themes: seq<ThemeItem>, j: nat)
    requires j < |themes|
    ensures ThemeEdges(wid, themes[..j + 1]) == ThemeEdges(wid, themes[..j])
      + (if NamedTheme(themes[j]) then [Edge(wid, themes[j].fields["name"], HasTheme)] else [])
  {
    assert themes[..j + 1][..j] == themes[..j];
  }

  /** `execute_raw_cypher` after the query: the loop over the records that builds `nodes` and `edges`. */
  method ExecuteRawCypher(q: QueryOutcome) returns (result: CypherResult)
    ensures result == SubgraphOf(q)
  {
    if q.QueryFailed? {
      return Returned(Subgraph([], []));
    }
    var ok, nodes, edges := BuildGraph(q.records);
    if !ok {
      return RaisedAttributeError;
    }
    return Returned(Subgraph(nodes, edges));
  }

  /** The `for r in records` loop; `ok` is false when a record raises, which ends the call. */
  method BuildGraph(records: seq<Record>) returns (ok: bool, nodes: seq<Node>, edges: seq<Edge>)
    ensures ok <==> !SomeRecordRaises(records)
    ensures ok ==> nodes == Nodes(records) && edges == Edges(records)
  {
    nodes, edges := [], [];
    var i := 0;
    while i < |records|
      invariant 0 <= i <= |records|
      invariant !SomeRecordRaises(records[..i])
      invariant nodes == Nodes(records[..i])
      invariant edges == Edges(records[..i])
    {
      NodesPrefix(records, i);
      ok, nodes, edges := AddRecord(nodes, edges, records[i]);
      if !ok {
        SomeRecordRaisesAt(records, i);
        return;
      }
      i := i + 1;
    }
    assert records[..i] == records;
    ok := true;
  }

  /**
   * The body of the records loop: the defaults, then the node and its edges
   * when the id is known; `ok` is false when the id or title lookup raises.
   */
  method AddRecord(nodes0: seq<Node>, edges0: seq<Edge>, r: Record)
    returns (ok: bool, nodes: seq<Node>, edges: seq<Edge>)
    ensures ok <==> !Raises(r)
    ensures ok ==> nodes == nodes0 + NodeStep(r) && edges == edges0 + EdgeStep(r)
  {
    nodes, edges := nodes0, edges0;
    if Falsy(r.waiverId) && r.app.AppOther? {
      return false, nodes, edges;
    }
    var wid := WaiverId(r);
    if Falsy(r.title) && r.app.AppOther? {
      return false, nodes, edges;
    }
    var title := Title(r);
    var state := State(r);
    var themes := ThemesOf(r);
    var score := Score(r);
    if wid != UnknownId {
      nodes := nodes + [Node(wid, title, state, themes, score)];
      edges := AppendThemeEdges(edges + [Edge(wid, Some(state), LocatedIn)], wid, themes);
    }
    ok := true;
  }

  /** The `for t in themes` loop of one node. */
  method AppendThemeEdges(start: seq<Edge>, wid: string, themes: seq<ThemeItem>) returns (edges: seq<Edge>)
    ensures edges == start + ThemeEdges(wid, themes)
  {
    edges := start;
    var j := 0;
    while j < |themes|
      invariant 0 <= j <= |themes|
      invariant edges == start + ThemeEdges(wid, themes[..j])
    {
      var t := themes[j];
      ThemeEdgesPrefix(wid, themes, j);
      if t.ThemeDict? && "name" in t.fields {
        edges := edges + [Edge(wid, t.fields["name"], HasTheme)];
      }
      j := j + 1;
    }
    assert themes[..j] == themes;
  }

  // ---------------------------------------------------------------------------
  // Properties
  // ---------------------------------------------------------------------------

  /** The number of themes of a list that get an edge. */
  function NamedCount(themes: seq<ThemeItem>): nat
    decreases |themes|
  {
    if themes == [] then 0 else NamedCount(themes[..|themes| - 1]) + (if NamedTheme(themes[|themes| - 1]) then 1 else 0)
  }

  /** The number of named themes over all nodes. */
  function NodeThemeCount(nodes: seq<Node>): nat
    decreases |nodes|
  {
    if nodes == [] then 0 else NodeThemeCount(nodes[..|nodes| - 1]) + NamedCount(nodes[|nodes| - 1].themes)
  }

  /** A theme list has one edge per named theme, every one from `wid`. */
  lemma {:induction false} ThemeEdgesShape(wid: string, themes: seq<ThemeItem>)
    ensures |ThemeEdges(wid, themes)| == NamedCount(themes)
    ensures forall e | e in ThemeEdges(wid, themes) :: e.from == wid && e.kind == HasTheme
    decreases |themes|
  {
    if themes != [] {
      ThemeEdgesShape(wid, themes[..|themes| - 1]);
    }
  }

  /** |edges| = |nodes| + the number of named themes of the emitted nodes. */
  lemma {:induction false} EdgeCount(records: seq<Record>)
    ensures |Edges(records)| == |Nodes(records)| + NodeThemeCount(Nodes(records))
    decreases |records|
  {
    if records != [] {
      var init := records[..|records| - 1];
      var r := records[|records| - 1];
      EdgeCount(init);
      ThemeEdgesShape(WaiverId(r), ThemesOf(r));
      NodeThemeCountAppend(Nodes(init), NodeStep(r));
    }
  }

  lemma NodeThemeCountAppend(a: seq<Node>, b: seq<Node>)
    requires |b| <= 1
    ensures NodeThemeCount(a + b) == NodeThemeCount(a) + NodeThemeCount(b)
  {
    if b != [] {
      assert (a + b)[..|a + b| - 1] == a;
      assert b[..0] == [];
    } else {
      assert a + b == a;
    }
  }

  /** Every edge starts at an emitted node, and no node has the id `"unknown_id"`. */
  lemma {:induction false} EdgesFromNodes(records: seq<Record>)
    ensures forall e | e in Edges(records) :: exists n | n in Nodes(records) :: n.id == e.from
    ensures forall n | n in Nodes(records) :: n.id != UnknownId
    decreases |records|
  {
    if records != [] {
      var init := records[..|records| - 1];
      var r := records[|records| - 1];
      EdgesFromNodes(init);
      ThemeEdgesShape(WaiverId(r), ThemesOf(r));
      forall e | e in Edges(records) ensures exists n | n in Nodes(records) :: n.id == e.from {
        if e in Edges(init) {
          var n :| n in Nodes(init) && n.id == e.from;
          assert n in Nodes(records);
        } else {
          assert NodeStep(r)[0] in Nodes(records);
        }
      }
    }
  }

  /**
   * Each node's `LOCATED_IN` edge: the edges of kind `LOCATED_IN` are, in order,
   * exactly one per node, from its id to its state.
   */
  lemma {:induction false} LocatedInPerNode(records: seq<Record>)
    ensures LocatedEdges(Edges(records)) == LocatedOf(Nodes(records))
    decreases |records|
  {
    if records != [] {
      var init := records[..|records| - 1];
      var r := records[|records| - 1];
      LocatedInPerNode(init);
      LocatedEdgesAppend(Edges(init), EdgeStep(r));
      LocatedOfAppend(Nodes(init), NodeStep(r));
      LocatedInOfRecord(r);
    }
  }

  lemma LocatedInOfRecord(r: Record)
    ensures LocatedEdges(EdgeStep(r)) == LocatedOf(NodeStep(r))
  {
    var wid := WaiverId(r);
    if wid != UnknownId {
      var located := Edge(wid, Some(State(r)), LocatedIn);
      var themeEdges := ThemeEdges(wid, ThemesOf(r));
      ThemeEdgesShape(wid, ThemesOf(r));
      NoLocatedAmongThemeEdges(themeEdges);
      LocatedEdgesAppend([located], themeEdges);
      assert LocatedEdges([located]) == [located] by {
        assert [located][..0] == [];
      }
    }
  }

  /** The `LOCATED_IN` edges of a list, in order. */
  function LocatedEdges(edges: seq<Edge>): seq<Edge>
    decreases |edges|
  {
    if edges == [] then []
    else LocatedEdges(edges[..|edges| - 1]) + (if edges[|edges| - 1].kind == LocatedIn then [edges[|edges| - 1]] else [])
  }

  /** One `LOCATED_IN` edge per node, from its id to its state. */
  function LocatedOf(nodes: seq<Node>): (r: seq<Edge>)
    ensures |r| == |nodes|
    ensures forall i | 0 <= i < |nodes| :: r[i] == Edge(nodes[i].id, Some(nodes[i].state), LocatedIn)
  {
    seq(|nodes|, i requires 0 <= i < |nodes| => Edge(nodes[i].id, Some(nodes[i].state), LocatedIn))
  }

  lemma {:induction false} LocatedEdgesAppend(a: seq<Edge>, b: seq<Edge>)
    ensures LocatedEdges(a + b) == LocatedEdges(a) + LocatedEdges(b)
    decreases |b|
  {
    if b == [] {
      assert a + b == a;
    } else {
      assert (a + b)[..|a + b| - 1] == a + b[..|b| - 1];
      LocatedEdgesAppend(a, b[..|b| - 1]);
    }
  }

  lemma LocatedOfAppend(a: seq<Node>, b: seq<Node>)
    ensures LocatedOf(a + b) == LocatedOf(a) + LocatedOf(b)
  {
  }

  lemma {:induction false} NoLocatedAmongThemeEdges(edges: seq<Edge>)
    requires forall e | e in edges :: e.kind == HasTheme
    ensures LocatedEdges(edges) == []
    decreases |edges|
  {
    if edges != [] {
      NoLocatedAmongThemeEdges(edges[..|edges| - 1]);
    }
  }

  /**
   * One record: the call raises exactly when the id or the title falls through
   * to an `app` entry that is not a dictionary; otherwise a node is emitted
   * exactly when the id found by the fallback chain is not `"unknown_id"`,
   * with the documented defaults. A missing `app` key never raises.
   */
  lemma OneRecord(r: Record)
    ensures SubgraphOf(Records([r])).RaisedAttributeError?
        <==> r.app.AppOther? && (r.waiverId.None? || r.waiverId.value == "" || r.title.None? || r.title.value == "")
    ensures !r.app.AppOther? ==> SubgraphOf(Records([r])).Returned?
    ensures SubgraphOf(Records([r])).Returned? ==>
      |SubgraphOf(Records([r])).graph.nodes| == (if WaiverId(r) != UnknownId then 1 else 0)
    ensures WaiverId(r) != UnknownId ==> Nodes([r])[0].id == WaiverId(r)
    ensures (r.waiverId.None? || r.waiverId.value == "") && r.app.NoApp? ==> SubgraphOf(Records([r])) == Returned(Subgraph([], []))
    ensures (r.title.None? || r.title.value == "") && r.app.NoApp? ==> Title(r) == "Untitled"
    ensures (r.state.None? || r.state.value == "") ==> State(r) == "Unknown State"
    ensures r.themes.None? ==> ThemesOf(r) == []
    ensures r.score.None? ==> Score(r) == 0.0
  {
    assert [r][..0] == [];
    assert SomeRecordRaises([r]) == Raises(r);
    assert Nodes([r]) == NodeStep(r);
    assert Edges([r]) == EdgeStep(r);
  }

  /**
   * One record that raises makes the whole call raise, whatever the records
   * before it gave; records whose `app` entry is missing or a dictionary never
   * raise.
   */
  lemma RaiseDiscardsGraph(records: seq<Record>, i: nat)
    requires i < |records| && Raises(records[i])
    ensures SubgraphOf(Records(records)) == RaisedAttributeError
  {
    SomeRecordRaisesAt(records, i);
  }

  lemma DictAppsReturn(records: seq<Record>)
    requires forall k | 0 <= k < |records| :: !records[k].app.AppOther?
    ensures SubgraphOf(Records(records)) == Returned(Subgraph(Nodes(records), Edges(records)))
  {
    NoRecordRaises(records);
  }

  lemma {:induction false} SomeRecordRaisesAt(records: seq<Record>, i: nat)
    requires i < |records| && Raises(records[i])
    ensures SomeRecordRaises(records)
    decreases |records|
  {
    if i < |records| - 1 {
      SomeRecordRaisesAt(records[..|records| - 1], i);
    }
  }

  lemma {:induction false} NoRecordRaises(records: seq<Record>)
    requires forall k | 0 <= k < |records| :: !records[k].app.AppOther?
    ensures !SomeRecordRaises(records)
    decreases |records|
  {
    if records != [] {
      NoRecordRaises(records[..|records| - 1]);
    }
  }

  /** A query that raises gives no nodes and no edges. */
  lemma QueryFailureIsEmpty()
    ensures SubgraphOf(QueryFailed) == Returned(Subgraph([], []))
  {
  }
}
