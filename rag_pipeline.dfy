/**
 * `Pipeline.ask` between retrieval and generation: the metadata filter on the
 * search hits, the top-5 ranking, the numbered context, the prompt, and the
 * paths the subgraph is requested for. The search, the language model and the
 * graph are external: the hits are an input, and the prompt and the paths are
 * what those services are called with.
 */
module RagPipeline {
  import opened Wrappers
  import opened Text

  /** A value as a filter dictionary or a document field holds it. */
  datatype Value = Null | Int(i: int) | Str(s: string)

  datatype Document = Document(year: Value, state: Value, group: Value, path: string)

  datatype Chunk = Chunk(text: string, page: int)

  datatype Hit = Hit(document: Document, chunk: Chunk, score: real)

  /** One entry of `src_meta`. */
  datatype Source = Source(rank: nat, path: string, page: int, score: real)

  /** At most this many hits reach the context. */
  const MaxSources := 5
  /** Each chunk is cut to this many characters in the context. */
  const MaxContextChars := 1200
  const NoContext := "(no context)"

  /** `filters.get(key)`, where an absent key and a `None` value both read as `None`. */
  function FilterValue(filters: map<string, Value>, key: string): Value {
    if key in filters then filters[key] else Null
  }

  /** `y is None or field == y` */
  predicate Matches(wanted: Value, field: Value) {
    wanted.Null? || field == wanted
  }

  /** The comprehension's condition on one hit. */
  predicate Keep(filters: map<string, Value>, h: Hit) {
    && Matches(FilterValue(filters, "year"), h.document.year)
    && Matches(FilterValue(filters, "state"), h.document.state)
    && Matches(FilterValue(filters, "group"), h.document.group)
  }

  /** The hits the comprehension keeps, in order. */
  function KeepHits(filters: map<string, Value>, hits: seq<Hit>): seq<Hit>
    decreases |hits|
  {
    if hits == [] then []
    else KeepHits(filters, hits[..|hits| - 1]) + (if Keep(filters, hits[|hits| - 1]) then [hits[|hits| - 1]] else [])
  }

  /** `if filters:` — `None` and the empty dictionary leave the hits as they are. */
  function FilterHits(filters: Option<map<string, Value>>, hits: seq<Hit>): (r: seq<Hit>)
    ensures filters.None? || filters.value == map[] ==> r == hits
  {
    if filters.Some? && filters.value != map[] then KeepHits(filters.value, hits) else hits
  }

  /** `hits[:5]` */
  function TopHits(hits: seq<Hit>): (r: seq<Hit>)
    ensures |r| == if |hits| < MaxSources then |hits| else MaxSources
    ensures r == hits[..|r|]
  {
    if |hits| <= MaxSources then hits else hits[..MaxSources]
  }

  /** `f"[#{i}] {c.text[:1200]}"` */
  function ContextLine(rank: nat, h: Hit): string {
    "[#" + NatToString(rank) + "] " + Take(h.chunk.text, MaxContextChars)
  }

  function SourceOf(rank: nat, h: Hit): Source {
    Source(rank, h.document.path, h.chunk.page, h.score)
  }

  /** `ctx_lines`: one line per top hit, numbered from 1. */
  function ContextLines(hits: seq<Hit>): (r: seq<string>)
    ensures |r| == |TopHits(hits)|
    ensures forall i | 0 <= i < |r| :: r[i] == ContextLine(i + 1, hits[i])
  {
    var top := TopHits(hits);
    seq(|top|, i requires 0 <= i < |top| => ContextLine(i + 1, top[i]))
  }

  /** `src_meta`: one source per top hit, ranked from 1. */
  function Sources(hits: seq<Hit>): (r: seq<Source>)
    ensures |r| == |TopHits(hits)|
    ensures forall i | 0 <= i < |r| :: r[i] == SourceOf(i + 1, hits[i])
  {
    var top := TopHits(hits);
    seq(|top|, i requires 0 <= i < |top| => SourceOf(i + 1, top[i]))
  }

  /** `"\n\n".join(ctx_lines) or "(no context)"` */
  function Context(lines: seq<string>): string {
    var joined := Join("\n\n", lines);
    if joined != "" then joined else NoContext
  }

  /** The user prompt piece. */
  function UserPrompt(query: string, context: string): string {
    "Question: " + query + "\n\nContext:\n" + context + "\n\nAnswer:"
  }

  /** What `ask` hands on: the prompt for the model, the sources, and the subgraph's paths. */
  datatype AskPlan = AskPlan(userPrompt: string, sources: seq<Source>, subgraphPaths: seq<string>)

  function Paths(sources: seq<Source>): (r: seq<string>)
    ensures |r| == |sources| && forall i | 0 <= i < |sources| :: r[i] == sources[i].path
  {
    seq(|sources|, i requires 0 <= i < |sources| => sources[i].path)
  }

  /** The plan `ask` follows for a query, the hits of the search and the filters. */
  function Plan(query: string, hits: seq<Hit>, filters: Option<map<string, Value>>): AskPlan {
    var kept := FilterHits(filters, hits);
    var sources := Sources(kept);
    AskPlan(UserPrompt(query, Context(ContextLines(kept))), sources, Paths(sources))
  }

  /** `Pipeline.ask` between `search_text` and `llm.answer`: the filter, then the enumerate loop. */
  method Ask(query: string, searchHits: seq<Hit>, filters: Option<map<string, Value>>) returns (plan: AskPlan)
    ensures plan == Plan(query, searchHits, filters)
  {
    var hits := FilterHits(filters, searchHits);
    var ctxLines, srcMeta := RankHits(hits);
    var context := Join("\n\n", ctxLines);
    if context == "" {
      context := NoContext;
    }
    plan := AskPlan(UserPrompt(query, context), srcMeta, Paths(srcMeta));
  }

  /** The `for i, h in enumerate(hits[:5], 1)` loop that fills `ctx_lines` and `src_meta`. */
  method RankHits(hits: seq<Hit>) returns (ctxLines: seq<string>, srcMeta: seq<Source>)
    ensures ctxLines == ContextLines(hits)
    ensures srcMeta == Sources(hits)
  {
    var top := TopHits(hits);
    ctxLines, srcMeta := [], [];
    var i := 1;
    while i <= |top|
      invariant 1 <= i <= |top| + 1
      invariant ctxLines == ContextLines(hits)[..i - 1]
      invariant srcMeta == Sources(hits)[..i - 1]
    {
      var h := top[i - 1];
      ctxLines := ctxLines + ["[#" + NatToString(i) + "] " + Take(h.chunk.text, MaxContextChars)];
      srcMeta := srcMeta + [Source(i, h.document.path, h.chunk.page, h.score)];
      assert ctxLines == ContextLines(hits)[..i];
      assert srcMeta == Sources(hits)[..i];
      i := i + 1;
    }
    assert ctxLines == ContextLines(hits);
    assert srcMeta == Sources(hits);
  }

  // ---------------------------------------------------------------------------
  // Properties
  // ---------------------------------------------------------------------------

  /** A hit is kept exactly when every filter that is set equals the document's field. */
  lemma {:induction false} KeepHitsMembers(filters: map<string, Value>, hits: seq<Hit>)
    ensures forall h | h in KeepHits(filters, hits) :: h in hits && Keep(filters, h)
    ensures forall h | h in hits && Keep(filters, h) :: h in KeepHits(filters, hits)
    decreases |hits|
  {
    if hits != [] {
      var init := hits[..|hits| - 1];
      KeepHitsMembers(filters, init);
      forall h | h in hits && Keep(filters, h) ensures h in KeepHits(filters, hits) {
        if h != hits[|hits| - 1] {
          var k :| 0 <= k < |hits| && hits[k] == h;
          assert init[k] == h;
        }
      }
    }
  }

  /** Filtering keeps the order: it distributes over concatenation. */
  lemma {:induction false} KeepHitsAppend(filters: map<string, Value>, a: seq<Hit>, b: seq<Hit>)
    ensures KeepHits(filters, a + b) == KeepHits(filters, a) + KeepHits(filters, b)
    decreases |b|
  {
    if b == [] {
      assert a + b == a;
    } else {
      assert (a + b)[..|a + b| - 1] == a + b[..|b| - 1];
      KeepHitsAppend(filters, a, b[..|b| - 1]);
    }
  }

  /** A filter dictionary with none of the three keys set keeps every hit. */
  lemma {:induction false} UnsetFiltersKeepAll(filters: map<string, Value>, hits: seq<Hit>)
    requires FilterValue(filters, "year").Null? && FilterValue(filters, "state").Null? && FilterValue(filters, "group").Null?
    ensures KeepHits(filters, hits) == hits
    decreases |hits|
  {
    if hits != [] {
      UnsetFiltersKeepAll(filters, hits[..|hits| - 1]);
    }
  }

  /**
   * At most five sources, ranked 1..n in hit order; the subgraph is asked for
   * exactly their paths in rank order.
   */
  lemma PlanSources(query: string, hits: seq<Hit>, filters: Option<map<string, Value>>)
    ensures var plan := Plan(query, hits, filters);
      var kept := FilterHits(filters, hits);
      && |plan.sources| == (if |kept| < MaxSources then |kept| else MaxSources)
      && (forall i | 0 <= i < |plan.sources| :: plan.sources[i].rank == i + 1 && plan.sources[i].path == kept[i].document.path)
      && |plan.subgraphPaths| == |plan.sources|
      && (forall i | 0 <= i < |plan.sources| :: plan.subgraphPaths[i] == kept[i].document.path)
  {
  }

  /** A context line starts with its rank marker and holds at most 1200 characters of the chunk. */
  lemma ContextLineShape(rank: nat, h: Hit)
    ensures var line := ContextLine(rank, h);
      var marker := "[#" + NatToString(rank) + "] ";
      && line[..|marker|] == marker
      && |line| <= |marker| + MaxContextChars
      && h.chunk.text[..|line| - |marker|] == line[|marker|..]
  {
  }

  /** The context is `"(no context)"` exactly when no hit is left after filtering. */
  lemma NoContextIffNoHits(hits: seq<Hit>)
    ensures Context(ContextLines(hits)) == NoContext <==> hits == []
  {
    var lines := ContextLines(hits);
    if hits != [] {
      JoinStartsWithFirst("\n\n", lines);
      var first := lines[0];
      assert first[0] == '[';
      assert Join("\n\n", lines)[0] == '[';
      assert NoContext[0] == '(';
    }
  }

  /** A join of non-empty parts starts with the first part. */
  lemma JoinStartsWithFirst(sep: string, parts: seq<string>)
    requires parts != [] && parts[0] != ""
    ensures Join(sep, parts) != "" && Join(sep, parts)[0] == parts[0][0]
  {
  }
}
