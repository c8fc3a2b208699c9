/**
 * The spreadsheet-to-knowledge-graph ingest: every row with an application
 * number becomes one waiver with its properties and one theme per other
 * non-blank column. The embedding service is a parameter that gives a vector
 * or `None` when it raises; the Cypher write is the returned record of what
 * is written.
 */
module GraphIngest {
  import opened Wrappers
  import opened Text

  /** A spreadsheet row read with `dtype=str` and `fillna("")`: its cells in column order. */
  type Row = seq<(string, string)>

  const ApplicationNumberColumn := "Application Number"
  const StateColumn := "Which state (1A)?"
  const TitleColumn := "What is the name of the waiver (1B)?"
  const YearColumn := "Year"
  const ApprovedDateColumn := "Approved Effective Date (1E)"
  const AmendmentColumn := "Amendment Number"

  /** The embedder receives at most this many characters. */
  const MaxEmbedChars := 7000

  // ---------------------------------------------------------------------------
  // Embedding
  // ---------------------------------------------------------------------------

  /** The text the embedder is called with: none for falsy text, else its first 7000 characters. */
  function EmbedArgument(text: string): (r: Option<string>)
    ensures r.None? <==> text == ""
    ensures r.Some? ==> |r.value| <= MaxEmbedChars && |r.value| <= |text| && r.value == text[..|r.value|]
    ensures r.Some? ==> r.value != ""
    ensures r.Some? && |text| <= MaxEmbedChars ==> r.value == text
  {
    if text == "" then None else Some(Take(text, MaxEmbedChars))
  }

  /**
   * `_safe_embed(embedder, text)`, where `embed` gives the vector, or `None`
   * where `embed_query` raises.
   */
  function SafeEmbed<V>(embed: string -> Option<V>, text: string): (r: Option<V>)
    ensures text == "" ==> r.None?
  {
    match EmbedArgument(text)
    case None => None
    case Some(argument) => embed(argument)
  }

  /** Only the first 7000 characters of a text decide its embedding. */
  lemma SafeEmbedSeesPrefix<V>(embed: string -> Option<V>, a: string, b: string)
    requires a != "" && b != ""
    requires Take(a, MaxEmbedChars) == Take(b, MaxEmbedChars)
    ensures SafeEmbed(embed, a) == SafeEmbed(embed, b)
  {
  }

  /** The two embedding services. */
  datatype EmbeddingProvider = OpenAIEmbeddings | OllamaEmbeddings

  /** `get_provider_config(provider)`: the service and the vector index's dimensions. */
  function ProviderConfig(provider: string): (r: (EmbeddingProvider, nat))
    ensures r.0 == OpenAIEmbeddings <==> provider == "openai"
    ensures r.1 == (if provider == "openai" then 1536 else 1024)
  {
    if provider == "openai" then (OpenAIEmbeddings, 1536) else (OllamaEmbeddings, 1024)
  }

  /** The option is lower-cased before the lookup, so `"OpenAI"` selects the OpenAI service. */
  function IndexDimensions(providerOption: string): (dims: nat)
    ensures dims == 1536 <==> Lower(providerOption) == "openai"
    ensures dims == 1536 || dims == 1024
  {
    ProviderConfig(Lower(providerOption)).1
  }

  // ---------------------------------------------------------------------------
  // Row transform
  // ---------------------------------------------------------------------------

  /** `row.get(col, "")`: the value of the first cell of that column, `""` when absent. */
  function Cell(row: Row, col: string): string {
    if row == [] then ""
    else if row[0].0 == col then row[0].1
    else Cell(row[1..], col)
  }

  /** A non-empty value comes from a cell of that column; an absent column reads as `""`. */
  lemma {:induction false} CellFound(row: Row, col: string)
    ensures Cell(row, col) != "" ==> exists k | 0 <= k < |row| :: row[k] == (col, Cell(row, col))
    ensures (forall k | 0 <= k < |row| :: row[k].0 != col) ==> Cell(row, col) == ""
    decreases |row|
  {
    if row != [] && row[0].0 != col {
      CellFound(row[1..], col);
      var v := Cell(row, col);
      if v != "" {
        var k :| 0 <= k < |row[1..]| && row[1..][k] == (col, v);
        assert row[k + 1] == (col, v);
      }
    }
  }

  /** The waiver node's properties. */
  datatype WaiverProps<V> = WaiverProps(
    applicationNumber: string,
    programTitle: string,
    state: string,
    year: string,
    approvedDate: string,
    appType: string,
    embedding: Option<V>)

  /** A theme node: the column, the cell as read, and the embedding of `"col: value"`. */
  datatype Theme<V> = Theme(name: string, value: string, embedding: Option<V>)

  /** What `_cypher_ingest` is called with for one row. */
  datatype Ingested<V> = Ingested(props: WaiverProps<V>, themes: seq<Theme<V>>)

  /** `"AMENDMENT" if row.get("Amendment Number") else "NEW"`: any non-empty cell counts, even blank. */
  function AppType(row: Row): string {
    if Cell(row, AmendmentColumn) != "" then "AMENDMENT" else "NEW"
  }

  /** The text embedded for the waiver itself. */
  function Summary(programTitle: string, state: string, appType: string): string {
    programTitle + " in " + state + ". " + appType + " application."
  }

  function Props<V>(row: Row, embed: string -> Option<V>): WaiverProps<V> {
    var title := Strip(Cell(row, TitleColumn));
    var state := Strip(Cell(row, StateColumn));
    var appType := AppType(row);
    WaiverProps(Strip(Cell(row, ApplicationNumberColumn)), title, state, Strip(Cell(row, YearColumn)),
                Strip(Cell(row, ApprovedDateColumn)), appType, SafeEmbed(embed, Summary(title, state, appType)))
  }

  /** A cell becomes a theme when it is not one of the two key columns and is not blank. */
  predicate IsThemeCell(cell: (string, string)) {
    cell.0 != ApplicationNumberColumn && cell.0 != StateColumn && Strip(cell.1) != ""
  }

  function ThemeOf<V>(cell: (string, string), embed: string -> Option<V>): Theme<V> {
    Theme(cell.0, cell.1, SafeEmbed(embed, cell.0 + ": " + cell.1))
  }

  /** The themes of a row, in column order. */
  function Themes<V>(row: Row, embed: string -> Option<V>): seq<Theme<V>>
    decreases |row|
  {
    if row == [] then []
    else
      var cell := row[|row| - 1];
      Themes(row[..|row| - 1], embed) + (if IsThemeCell(cell) then [ThemeOf(cell, embed)] else [])
  }

  /** A row is ingested when its stripped application number is non-empty. */
  predicate Ingestible(row: Row) {
    Strip(Cell(row, ApplicationNumberColumn)) != ""
  }

  /** What one ingestible row is turned into. */
  function IngestRow<V>(row: Row, embed: string -> Option<V>): Ingested<V> {
    Ingested(Props(row, embed), Themes(row, embed))
  }

  /** What one row contributes: nothing when its application number is blank. */
  function IngestStep<V>(row: Row, embed: string -> Option<V>): seq<Ingested<V>> {
    if Ingestible(row) then [IngestRow(row, embed)] else []
  }

  /** Every ingested row, in spreadsheet order. */
  function IngestRows<V>(rows: seq<Row>, embed: string -> Option<V>): seq<Ingested<V>>
    decreases |rows|
  {
    if rows == [] then []
    else
      var row := rows[|rows| - 1];
      IngestRows(rows[..|rows| - 1], embed) + IngestStep(row, embed)
  }

  /** The `row_ingested` progress event. */
  datatype Event = RowIngested(applicationNumber: string)

  // ---------------------------------------------------------------------------
  // The loops
  // ---------------------------------------------------------------------------

  /** The `for col, val in row.items()` loop that appends to `themes`. */
  method CollectThemes<V>(row: Row, embed: string -> Option<V>) returns (themes: seq<Theme<V>>)
    ensures themes == Themes(row, embed)
  {
    themes := [];
    var i := 0;
    while i < |row|
      invariant 0 <= i <= |row|
      invariant themes == Themes(row[..i], embed)
    {
      var (col, val) := row[i];
      assert row[..i + 1][..i] == row[..i];
      if col != ApplicationNumberColumn && col != StateColumn && Strip(val) != "" {
        themes := themes + [Theme(col, val, SafeEmbed(embed, col + ": " + val))];
      }
      i := i + 1;
    }
    assert row[..i] == row;
  }

  /**
   * `ingest_statewise_kg`: the rows loop after the graph is wiped. Returns what
   * is written per row, the `created` counter and the progress events a
   * callback receives.
   */
  method IngestStatewiseKg<V>(rows: seq<Row>, embed: string -> Option<V>)
    returns (written: seq<Ingested<V>>, created: nat, events: seq<Event>)
    ensures written == IngestRows(rows, embed)
    ensures created == |written| == |events|
    ensures forall i | 0 <= i < |events| :: events[i] == RowIngested(written[i].props.applicationNumber)
  {
    written, created, events := [], 0, [];
    var r := 0;
    while r < |rows|
      invariant 0 <= r <= |rows|
      invariant written == IngestRows(rows[..r], embed)
      invariant created == |written| == |events|
      invariant forall i | 0 <= i < |events| :: events[i] == RowIngested(written[i].props.applicationNumber)
    {
      var row := rows[r];
      IngestRowsPrefix(rows, r, embed);
      var appNum := Strip(Cell(row, ApplicationNumberColumn));
      if appNum != "" {
        var props := Props(row, embed);
        var themes := CollectThemes(row, embed);
        assert Ingested(props, themes) == IngestRow(row, embed);
        written := written + [Ingested(props, themes)];
        created := created + 1;
        events := events + [RowIngested(appNum)];
      }
      r := r + 1;
    }
    assert rows[..r] == rows;
  }

  lemma IngestRowsPrefix<V>(rows: seq<Row>, r: nat, embed: string -> Option<V>)
    requires r < |rows|
    ensures IngestRows(rows[..r + 1], embed)
      == IngestRows(rows[..r], embed) + IngestStep(rows[r], embed)
  {
    assert rows[..r + 1][..r] == rows[..r];
  }

  // ---------------------------------------------------------------------------
  // Properties
  // ---------------------------------------------------------------------------

  /** Theme selection distributes over the columns: the order of the row is kept. */
  lemma {:induction false} ThemesAppend<V>(a: Row, b: Row, embed: string -> Option<V>)
    ensures Themes(a + b, embed) == Themes(a, embed) + Themes(b, embed)
    decreases |b|
  {
    if b == [] {
      assert a + b == a;
    } else {
      assert (a + b)[..|a + b| - 1] == a + b[..|b| - 1];
      ThemesAppend(a, b[..|b| - 1], embed);
    }
  }

  /** Every theme is a qualifying cell of the row, with the embedding of `"col: value"`. */
  lemma {:induction false} ThemesAreThemeCells<V>(row: Row, embed: string -> Option<V>)
    ensures forall t | t in Themes(row, embed) ::
      t.name != ApplicationNumberColumn && t.name != StateColumn && Strip(t.value) != ""
      && (t.name, t.value) in row && t.embedding == SafeEmbed(embed, t.name + ": " + t.value)
    decreases |row|
  {
    if row != [] {
      ThemesAreThemeCells(row[..|row| - 1], embed);
      forall t | t in Themes(row[..|row| - 1], embed) ensures (t.name, t.value) in row {
        assert (t.name, t.value) in row[..|row| - 1];
      }
    }
  }

  /** Every qualifying cell of the row yields a theme. */
  lemma {:induction false} ThemeCellsAreThemes<V>(row: Row, embed: string -> Option<V>)
    ensures forall k | 0 <= k < |row| && IsThemeCell(row[k]) :: ThemeOf(row[k], embed) in Themes(row, embed)
    decreases |row|
  {
    if row != [] {
      var init := row[..|row| - 1];
      ThemeCellsAreThemes(init, embed);
      forall k | 0 <= k < |row| - 1 && IsThemeCell(row[k]) ensures ThemeOf(row[k], embed) in Themes(row, embed) {
        assert row[k] == init[k];
      }
    }
  }

  /** Row ingestion distributes over the rows: spreadsheet order is kept. */
  lemma {:induction false} IngestRowsAppend<V>(a: seq<Row>, b: seq<Row>, embed: string -> Option<V>)
    ensures IngestRows(a + b, embed) == IngestRows(a, embed) + IngestRows(b, embed)
    decreases |b|
  {
    if b == [] {
      assert a + b == a;
    } else {
      assert (a + b)[..|a + b| - 1] == a + b[..|b| - 1];
      IngestRowsAppend(a, b[..|b| - 1], embed);
    }
  }

  /**
   * One row: a row with a blank application number is skipped; any other row is
   * ingested with its stripped number, `AMENDMENT` exactly when its amendment
   * cell is non-empty, and its themes.
   */
  lemma IngestOneRow<V>(row: Row, embed: string -> Option<V>)
    ensures !Ingestible(row) ==> IngestRows([row], embed) == []
    ensures Ingestible(row) ==> |IngestRows([row], embed)| == 1
    ensures Ingestible(row) ==> (
      var w := IngestRows([row], embed)[0];
      && w.props.applicationNumber == Strip(Cell(row, ApplicationNumberColumn))
      && (w.props.appType == "AMENDMENT" <==> Cell(row, AmendmentColumn) != "")
      && (w.props.appType == "NEW" <==> Cell(row, AmendmentColumn) == "")
      && w.themes == Themes(row, embed))
  {
    assert [row][..0] == [];
  }

  /** Every ingested waiver has a non-empty application number with no surrounding whitespace. */
  lemma {:induction false} IngestedNumbersNonBlank<V>(rows: seq<Row>, embed: string -> Option<V>)
    ensures forall w | w in IngestRows(rows, embed) ::
      w.props.applicationNumber != "" && Strip(w.props.applicationNumber) == w.props.applicationNumber
    decreases |rows|
  {
    if rows != [] {
      IngestedNumbersNonBlank(rows[..|rows| - 1], embed);
      StepNumberNonBlank(rows[|rows| - 1], embed);
    }
  }

  lemma StepNumberNonBlank<V>(row: Row, embed: string -> Option<V>)
    ensures forall w | w in IngestStep(row, embed) ::
      w.props.applicationNumber != "" && Strip(w.props.applicationNumber) == w.props.applicationNumber
  {
    if Ingestible(row) {
      var n := Strip(Cell(row, ApplicationNumberColumn));
      StripShape(Cell(row, ApplicationNumberColumn));
      StripTrimmedIsIdentity(n);
      assert IngestStep(row, embed)[0].props.applicationNumber == n;
    }
  }

  /** Stripping a string that has no whitespace at either end changes nothing. */
  lemma StripTrimmedIsIdentity(s: string)
    requires s == [] || (!IsSpace(s[0]) && !IsSpace(s[|s| - 1]))
    ensures Strip(s) == s
  {
  }

  /** `created` is the number of rows with a non-blank application number. */
  lemma {:induction false} CreatedCountsIngestible<V>(rows: seq<Row>, embed: string -> Option<V>)
    ensures |IngestRows(rows, embed)| == |IngestibleIndices(rows)|
    decreases |rows|
  {
    if rows != [] {
      var n := |rows| - 1;
      CreatedCountsIngestible(rows[..n], embed);
      assert |IngestStep(rows[n], embed)| == if Ingestible(rows[n]) then 1 else 0;
      IngestibleIndicesSnoc(rows);
    }
  }

  /** The positions of the rows that are ingested. */
  ghost function IngestibleIndices(rows: seq<Row>): set<int> {
    set k | 0 <= k < |rows| && Ingestible(rows[k])
  }

  lemma IngestibleIndicesSnoc(rows: seq<Row>)
    requires rows != []
    ensures |IngestibleIndices(rows)| == |IngestibleIndices(rows[..|rows| - 1])| + (if Ingestible(rows[|rows| - 1]) then 1 else 0)
  {
    var n := |rows| - 1;
    var before := IngestibleIndices(rows[..n]);
    var extra: set<int> := if Ingestible(rows[n]) then {n} else {};
    forall k | 0 <= k < n ensures rows[..n][k] == rows[k] {
    }
    assert IngestibleIndices(rows) == before + extra by {
      forall k | k in IngestibleIndices(rows) ensures k in before + extra {
        if k < n {
          assert rows[..n][k] == rows[k];
        }
      }
    }
    assert n !in before;
    assert before !! extra;
  }

}
