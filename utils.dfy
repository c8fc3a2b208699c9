/**
 * Text helpers of the server: the anchor-driven section capture of
 * `extract_specific_sections`, the length-threshold flags of
 * `process_logic_flags`, and the fields of `extract_waiver_info`.
 */
module Utils {
  import opened Wrappers
  import opened Text

  // ---------------------------------------------------------------------------
  // extract_specific_sections
  // ---------------------------------------------------------------------------

  /** One entry of the sections configuration, in the dictionary's order. */
  datatype Section = Section(key: string, startAnchor: string, stopAnchor: string, contentAfter: Option<string>)

  /** The configuration is a dictionary: no key twice. */
  ghost predicate DistinctKeys(config: seq<Section>) {
    forall i, j | 0 <= i < j < |config| :: config[i].key != config[j].key
  }

  function Keys(config: seq<Section>): set<string> {
    set i | 0 <= i < |config| :: config[i].key
  }

  const AdditionalCriteriaAnchor := "Additional Criteria. The state further specifies its target group(s) as follows:"
  const TransitionAnchor := "Transition of Individuals Affected by Maximum Age Limitation"

  /**
   * `SECTIONS_TO_EXTRACT`, in the dictionary's order. The stop anchor of the first
   * section is the start anchor of the second.
   */
  function SectionsToExtract(): (c: seq<Section>)
    ensures |c| == 4
    ensures c[0].stopAnchor == c[1].startAnchor
  {
    [ Section("B_1_b_Additional_Criteria", AdditionalCriteriaAnchor, TransitionAnchor, None),
      Section("B_1_c_Transition_Plan", TransitionAnchor, "Appendix B: Participant Access and Eligibility",
              Some("Specify:")),
      Section("C_2_a_Criminal_History", "Criminal History and/or Background Investigations",
              "Abuse Registry Screening", Some("operating agency (if applicable):")),
      Section("D_1_b_Service_Plan_Safeguards", "Service Plan Development Safeguards. Select one:",
              "Appendix D: Participant-Centered Planning and Service Delivery", Some("Specify:")) ]
  }

  /** The four keys are distinct and non-empty, so each section can be opened. */
  lemma SectionsToExtractKeys()
    ensures DistinctKeys(SectionsToExtract())
    ensures forall i | 0 <= i < 4 :: SectionsToExtract()[i].key != ""
  {
    var c := SectionsToExtract();
    assert |c[0].key| == 25 && |c[1].key| == 21 && |c[2].key| == 22 && |c[3].key| == 29;
  }

  /**
   * The loop variables: `current_section_key` (as the index of its entry, or
   * `None`), `ready_to_capture`, `current_capture_list` and `file_results`.
   */
  datatype ScanState = ScanState(current: Option<nat>, ready: bool, captured: seq<string>, results: map<string, string>)

  const InitialScan := ScanState(None, false, [], map[])

  /**
   * `if current_section_key:`: a section is open when one was chosen and its key
   * is a non-empty string (Python treats `""` as false).
   */
  predicate Open(config: seq<Section>, st: ScanState) {
    st.current.Some? && st.current.value < |config| && config[st.current.value].key != ""
  }

  /** The first entry, from `from` on, whose start anchor occurs in `text`. */
  function FirstStart(config: seq<Section>, text: string, from: nat): (r: Option<nat>)
    ensures r.Some? ==> from <= r.value < |config| && Contains(text, config[r.value].startAnchor)
    ensures r.Some? ==> forall k | from <= k < r.value :: !Contains(text, config[k].startAnchor)
    ensures r.None? ==> forall k | from <= k < |config| :: !Contains(text, config[k].startAnchor)
    decreases |config| - from
  {
    if from >= |config| then None
    else if Contains(text, config[from].startAnchor) then Some(from)
    else FirstStart(config, text, from + 1)
  }

  /** Step 1 of a block: an open section whose stop anchor occurs is stored and closed. */
  function CloseStep(config: seq<Section>, st: ScanState, text: string): ScanState {
    if Open(config, st) && Contains(text, config[st.current.value].stopAnchor) then
      ScanState(None, false, [], st.results[config[st.current.value].key := Join("\n", st.captured)])
    else st
  }

  /** The rest of a block once no start anchor was taken: the marker test, then capture. */
  function CaptureStep(config: seq<Section>, st: ScanState, text: string): ScanState {
    if Open(config, st) && !st.ready then
      var marker := config[st.current.value].contentAfter;
      if marker.Some? && Contains(text, marker.value) then st.(ready := true) else st
    else if Open(config, st) && st.ready && text != "" then
      st.(captured := st.captured + [text])
    else st
  }

  /**
   * One block of a page, as the block loop of `extract_specific_sections` handles
   * it, given its text with whitespace collapsed (`" ".join(block[4].strip().split())`).
   */
  function ScanBlock(config: seq<Section>, st: ScanState, text: string): ScanState {
    var st1 := CloseStep(config, st, text);
    if !Open(config, st1) then
      var j := FirstStart(config, text, 0);
      if j.Some? then
        var st2 := st1.(current := j, captured := [], ready := config[j.value].contentAfter.None?);
        if Open(config, st2) then st2 else CaptureStep(config, st2, text)
      else CaptureStep(config, st1, text)
    else CaptureStep(config, st1, text)
  }

  /** The collapsed texts of the blocks of one page. */
  function BlockTexts(blocks: seq<string>): (r: seq<string>)
    ensures |r| == |blocks| && forall k | 0 <= k < |blocks| :: r[k] == Collapse(blocks[k])
  {
    seq(|blocks|, k requires 0 <= k < |blocks| => Collapse(blocks[k]))
  }

  /** The collapsed block texts of every page. */
  function PageTexts(pages: seq<seq<string>>): (r: seq<seq<string>>)
    ensures |r| == |pages| && forall p | 0 <= p < |pages| :: r[p] == BlockTexts(pages[p])
  {
    seq(|pages|, p requires 0 <= p < |pages| => BlockTexts(pages[p]))
  }

  /** The block texts in order, from state `st`. */
  function ScanBlocks(config: seq<Section>, st: ScanState, blocks: seq<string>): ScanState
    decreases |blocks|
  {
    if blocks == [] then st
    else ScanBlock(config, ScanBlocks(config, st, blocks[..|blocks| - 1]), blocks[|blocks| - 1])
  }

  /** The pages in order, each a sequence of block texts. */
  function ScanPages(config: seq<Section>, st: ScanState, pages: seq<seq<string>>): ScanState
    decreases |pages|
  {
    if pages == [] then st
    else ScanBlocks(config, ScanPages(config, st, pages[..|pages| - 1]), pages[|pages| - 1])
  }

  /** The final loop: every configured key not captured is `"Not Found"`. */
  function Finish(config: seq<Section>, results: map<string, string>): (r: map<string, string>)
    ensures forall k | k in results :: k in r && r[k] == results[k]
    ensures forall i | 0 <= i < |config| :: config[i].key in r
    ensures forall i | 0 <= i < |config| && config[i].key !in results :: r[config[i].key] == "Not Found"
    ensures r.Keys == results.Keys + Keys(config)
  {
    var missing := map i | 0 <= i < |config| && config[i].key !in results :: config[i].key := "Not Found";
    results + missing
  }

  /** The document's results: every page's blocks scanned, then the missing keys filled. */
  function SectionsOf(config: seq<Section>, pages: seq<seq<string>>): map<string, string> {
    Finish(config, ScanPages(config, InitialScan, PageTexts(pages)).results)
  }

  /** `extract_specific_sections(doc, sections_config)`, over the block texts of each page. */
  method ExtractSpecificSections(pages: seq<seq<string>>, config: seq<Section>) returns (fileResults: map<string, string>)
    requires DistinctKeys(config)
    ensures fileResults == SectionsOf(config, pages)
  {
    var st := InitialScan;
    ghost var texts := PageTexts(pages);
    var p := 0;
    while p < |pages|
      invariant 0 <= p <= |pages|
      invariant st == ScanPages(config, InitialScan, texts[..p])
    {
      var blocks := pages[p];
      ghost var before := st;
      ghost var pageTexts := texts[p];
      var b := 0;
      while b < |blocks|
        invariant 0 <= b <= |blocks|
        invariant st == ScanBlocks(config, before, pageTexts[..b])
      {
        var blockText := Collapse(blocks[b]);
        ScanBlocksPrefix(config, before, pageTexts, b);
        st := HandleBlock(config, st, blockText);
        b := b + 1;
      }
      assert pageTexts[..b] == pageTexts;
      ScanPagesPrefix(config, texts, p);
      p := p + 1;
    }
    assert texts[..p] == texts;
    fileResults := Finish(config, st.results);
  }

  lemma ScanBlocksPrefix(config: seq<Section>, st: ScanState, texts: seq<string>, b: nat)
    requires b < |texts|
    ensures ScanBlocks(config, st, texts[..b + 1]) == ScanBlock(config, ScanBlocks(config, st, texts[..b]), texts[b])
  {
    assert texts[..b + 1][..b] == texts[..b];
  }

  lemma ScanPagesPrefix(config: seq<Section>, pages: seq<seq<string>>, p: nat)
    requires p < |pages|
    ensures ScanPages(config, InitialScan, pages[..p + 1])
      == ScanBlocks(config, ScanPages(config, InitialScan, pages[..p]), pages[p])
  {
    assert pages[..p + 1][..p] == pages[..p];
  }

  /** The body of the block loop: stop test, start search, marker test, capture. */
  method HandleBlock(config: seq<Section>, st: ScanState, blockText: string) returns (next: ScanState)
    ensures next == ScanBlock(config, st, blockText)
  {
    var currentSection, readyToCapture, captureList, fileResults := st.current, st.ready, st.captured, st.results;
    if Open(config, st) {
      if Contains(blockText, config[currentSection.value].stopAnchor) {
        fileResults := fileResults[config[currentSection.value].key := Join("\n", captureList)];
        currentSection, readyToCapture, captureList := None, false, [];
      }
    }
    var st1 := ScanState(currentSection, readyToCapture, captureList, fileResults);
    assert st1 == CloseStep(config, st, blockText);
    if !Open(config, st1) {
      var j := FindStart(config, blockText);
      if j.Some? {
        currentSection, captureList := j, [];
        readyToCapture := config[j.value].contentAfter.None?;
        var st2 := ScanState(currentSection, readyToCapture, captureList, fileResults);
        if Open(config, st2) {
          return st2;
        }
      }
    }
    next := ScanState(currentSection, readyToCapture, captureList, fileResults);
    if Open(config, next) && !readyToCapture {
      var marker := config[currentSection.value].contentAfter;
      if marker.Some? && Contains(blockText, marker.value) {
        return next.(ready := true);
      }
    }
    if Open(config, next) && readyToCapture && blockText != "" {
      next := next.(captured := captureList + [blockText]);
    }
  }

  /** The `for section_key, config in sections_config.items()` loop with its `break`. */
  method FindStart(config: seq<Section>, blockText: string) returns (found: Option<nat>)
    ensures found == FirstStart(config, blockText, 0)
  {
    var i := 0;
    while i < |config|
      invariant 0 <= i <= |config|
      invariant FirstStart(config, blockText, 0) == FirstStart(config, blockText, i)
    {
      if Contains(blockText, config[i].startAnchor) {
        return Some(i);
      }
      i := i + 1;
    }
    return None;
  }

  // Properties of the section scan, stated over the collapsed block texts.

  /** Results only ever hold configured keys. */
  lemma {:induction false} ScanBlocksKeys(config: seq<Section>, st: ScanState, texts: seq<string>)
    requires st.results.Keys <= Keys(config)
    ensures ScanBlocks(config, st, texts).results.Keys <= Keys(config)
    decreases |texts|
  {
    if texts != [] {
      ScanBlocksKeys(config, st, texts[..|texts| - 1]);
      var before := ScanBlocks(config, st, texts[..|texts| - 1]);
      ScanBlockKeys(config, before, texts[|texts| - 1]);
    }
  }

  lemma ScanBlockKeys(config: seq<Section>, st: ScanState, text: string)
    requires st.results.Keys <= Keys(config)
    ensures ScanBlock(config, st, text).results.Keys <= Keys(config)
  {
    var st1 := CloseStep(config, st, text);
    assert st1.results.Keys <= Keys(config) by {
      if Open(config, st) && Contains(text, config[st.current.value].stopAnchor) {
        assert config[st.current.value].key in Keys(config);
      }
    }
    assert ScanBlock(config, st, text).results == st1.results;
  }

  lemma {:induction false} ScanPagesKeys(config: seq<Section>, st: ScanState, pages: seq<seq<string>>)
    requires st.results.Keys <= Keys(config)
    ensures ScanPages(config, st, pages).results.Keys <= Keys(config)
    decreases |pages|
  {
    if pages != [] {
      ScanPagesKeys(config, st, pages[..|pages| - 1]);
      ScanBlocksKeys(config, ScanPages(config, st, pages[..|pages| - 1]), pages[|pages| - 1]);
    }
  }

  /**
   * The result has exactly the configured keys, and a key never captured maps to
   * `"Not Found"`.
   */
  lemma SectionsKeys(config: seq<Section>, pages: seq<seq<string>>)
    ensures SectionsOf(config, pages).Keys == Keys(config)
    ensures forall i | 0 <= i < |config| && config[i].key !in ScanPages(config, InitialScan, PageTexts(pages)).results ::
      SectionsOf(config, pages)[config[i].key] == "Not Found"
  {
    ScanPagesKeys(config, InitialScan, PageTexts(pages));
  }

  /**
   * Closing: when a section is open and its stop anchor occurs in the block, its
   * captured blocks are stored newline-joined under its key (replacing any earlier
   * value), and, unless the same block opens another section, none stays open.
   */
  lemma ScanBlockCloses(config: seq<Section>, st: ScanState, text: string)
    requires Open(config, st) && Contains(text, config[st.current.value].stopAnchor)
    ensures ScanBlock(config, st, text).results == st.results[config[st.current.value].key := Join("\n", st.captured)]
    ensures FirstStart(config, text, 0).None? ==> !Open(config, ScanBlock(config, st, text))
  {
  }

  /**
   * Opening: when no section is open after the stop test, the first entry (in
   * configuration order) whose start anchor occurs is chosen; its capture list
   * starts empty, so the start block itself is never captured, and capture is
   * ready at once only when the entry has no `content_after` marker. This covers
   * the block that closes one section and opens the next.
   */
  lemma ScanBlockOpens(config: seq<Section>, st: ScanState, text: string, j: nat)
    requires !Open(config, CloseStep(config, st, text))
    requires FirstStart(config, text, 0) == Some(j) && config[j].key != ""
    ensures ScanBlock(config, st, text).current == Some(j)
    ensures ScanBlock(config, st, text).captured == []
    ensures ScanBlock(config, st, text).ready == config[j].contentAfter.None?
    ensures ScanBlock(config, st, text).results == CloseStep(config, st, text).results
    ensures forall k | 0 <= k < j :: !Contains(text, config[k].startAnchor)
  {
  }

  /**
   * The chained anchors of `SECTIONS_TO_EXTRACT`: while the additional-criteria
   * section is open, the block holding the transition heading stores it and opens
   * the transition-plan section in the same step, waiting for its `Specify:` marker.
   */
  lemma ChainedAnchorsReopen(st: ScanState, text: string)
    requires st.current == Some(0)
    requires Contains(text, TransitionAnchor) && !Contains(text, AdditionalCriteriaAnchor)
    ensures ScanBlock(SectionsToExtract(), st, text).results
         == st.results["B_1_b_Additional_Criteria" := Join("\n", st.captured)]
    ensures ScanBlock(SectionsToExtract(), st, text).current == Some(1)
    ensures ScanBlock(SectionsToExtract(), st, text).captured == []
    ensures !ScanBlock(SectionsToExtract(), st, text).ready
  {
    var c := SectionsToExtract();
    SectionsToExtractKeys();
    assert Open(c, st);
    assert !Open(c, CloseStep(c, st, text));
    assert FirstStart(c, text, 1) == Some(1);
    ScanBlockOpens(c, st, text, 1);
  }

  /**
   * While a section is open, start anchors are ignored: a block without its stop
   * anchor keeps the same section open and stores nothing. Before the marker,
   * blocks are not captured and the marker block itself is not captured either;
   * once ready, a non-empty block is appended.
   */
  lemma ScanBlockWhileOpen(config: seq<Section>, st: ScanState, text: string)
    requires Open(config, st) && !Contains(text, config[st.current.value].stopAnchor)
    ensures ScanBlock(config, st, text).current == st.current
    ensures ScanBlock(config, st, text).results == st.results
    ensures !st.ready ==> ScanBlock(config, st, text).captured == st.captured
    ensures !st.ready ==> (ScanBlock(config, st, text).ready <==>
      config[st.current.value].contentAfter.Some? && Contains(text, config[st.current.value].contentAfter.value))
    ensures st.ready ==> ScanBlock(config, st, text).ready
    ensures st.ready ==> (ScanBlock(config, st, text).captured ==
      st.captured + (if text == "" then [] else [text]))
  {
  }

  /** The non-empty texts, in order. */
  function Captured(texts: seq<string>): seq<string>
    decreases |texts|
  {
    if texts == [] then []
    else
      var last := texts[|texts| - 1];
      Captured(texts[..|texts| - 1]) + (if last == "" then [] else [last])
  }

  /** No text of `texts` holds `anchor`. */
  ghost predicate NoneContains(texts: seq<string>, anchor: string) {
    forall k | 0 <= k < |texts| :: !Contains(texts[k], anchor)
  }

  lemma NoneContainsPrefix(texts: seq<string>, anchor: string, n: nat)
    requires NoneContains(texts, anchor) && n <= |texts|
    ensures NoneContains(texts[..n], anchor)
  {
    forall k | 0 <= k < n ensures !Contains(texts[..n][k], anchor) {
      assert texts[..n][k] == texts[k];
    }
  }

  /**
   * A run of blocks without the stop anchor, read while a section is open and
   * ready, appends exactly its non-empty texts to the capture list.
   */
  lemma {:induction false} CaptureRun(config: seq<Section>, st: ScanState, texts: seq<string>)
    requires Open(config, st) && st.ready
    requires NoneContains(texts, config[st.current.value].stopAnchor)
    ensures ScanBlocks(config, st, texts) == st.(captured := st.captured + Captured(texts))
    decreases |texts|
  {
    if texts != [] {
      var init := texts[..|texts| - 1];
      NoneContainsPrefix(texts, config[st.current.value].stopAnchor, |texts| - 1);
      CaptureRun(config, st, init);
      ScanBlockWhileOpen(config, ScanBlocks(config, st, init), texts[|texts| - 1]);
    }
  }

  /**
   * A run of blocks with neither the stop anchor nor the marker, read while the
   * section waits for its marker, captures nothing.
   */
  lemma {:induction false} WaitRun(config: seq<Section>, st: ScanState, texts: seq<string>)
    requires Open(config, st) && !st.ready
    requires NoneContains(texts, config[st.current.value].stopAnchor)
    requires config[st.current.value].contentAfter.Some?
    requires NoneContains(texts, config[st.current.value].contentAfter.value)
    ensures ScanBlocks(config, st, texts) == st
    decreases |texts|
  {
    if texts != [] {
      var init := texts[..|texts| - 1];
      var section := config[st.current.value];
      NoneContainsPrefix(texts, section.stopAnchor, |texts| - 1);
      NoneContainsPrefix(texts, section.contentAfter.value, |texts| - 1);
      WaitRun(config, st, init);
      ScanBlockWhileOpen(config, st, texts[|texts| - 1]);
    }
  }

  /** `ScanBlocks` over a concatenation is the second run after the first. */
  lemma {:induction false} ScanBlocksAppend(config: seq<Section>, st: ScanState, a: seq<string>, b: seq<string>)
    ensures ScanBlocks(config, st, a + b) == ScanBlocks(config, ScanBlocks(config, st, a), b)
    decreases |b|
  {
    if b == [] {
      assert a + b == a;
    } else {
      assert (a + b)[..|a + b| - 1] == a + b[..|b| - 1];
      ScanBlocksAppend(config, st, a, b[..|b| - 1]);
    }
  }

  lemma ScanBlocksOne(config: seq<Section>, st: ScanState, text: string)
    ensures ScanBlocks(config, st, [text]) == ScanBlock(config, st, text)
  {
    assert [text][..0] == [];
  }

  lemma ScanBlocksSnoc(config: seq<Section>, st: ScanState, texts: seq<string>, text: string)
    ensures ScanBlocks(config, st, texts + [text]) == ScanBlock(config, ScanBlocks(config, st, texts), text)
  {
    assert (texts + [text])[..|texts|] == texts;
  }

  /**
   * A whole capture, for a section without a marker: a start block that opens
   * section `j`, then blocks without its stop anchor, then a block with it. The
   * section's value is the newline-join of the non-empty middle blocks.
   */
  lemma SectionCaptured(config: seq<Section>, st: ScanState, start: string, middle: seq<string>, stop: string, j: nat)
    requires !Open(config, CloseStep(config, st, start))
    requires FirstStart(config, start, 0) == Some(j) && config[j].key != ""
    requires config[j].contentAfter.None?
    requires NoneContains(middle, config[j].stopAnchor)
    requires Contains(stop, config[j].stopAnchor)
    ensures config[j].key in ScanBlocks(config, st, [start] + middle + [stop]).results
    ensures ScanBlocks(config, st, [start] + middle + [stop]).results[config[j].key] == Join("\n", Captured(middle))
  {
    ScanBlockOpens(config, st, start, j);
    var afterStart := ScanBlock(config, st, start);
    ScanBlocksOne(config, st, start);
    CaptureRun(config, afterStart, middle);
    ScanBlocksAppend(config, st, [start], middle);
    var filled := ScanBlocks(config, st, [start] + middle);
    assert filled == afterStart.(captured := Captured(middle)) by {
      assert [] + Captured(middle) == Captured(middle);
    }
    ScanBlocksSnoc(config, st, [start] + middle, stop);
    ScanBlockCloses(config, filled, stop);
  }

  /**
   * The same for a section with a `content_after` marker: blocks before the marker
   * block, and the marker block itself, are left out of the value.
   */
  lemma SectionCapturedAfterMarker(config: seq<Section>, st: ScanState, start: string, before: seq<string>,
                                   marker: string, middle: seq<string>, stop: string, j: nat)
    requires !Open(config, CloseStep(config, st, start))
    requires FirstStart(config, start, 0) == Some(j) && config[j].key != ""
    requires config[j].contentAfter.Some?
    requires NoneContains(before, config[j].stopAnchor) && NoneContains(before, config[j].contentAfter.value)
    requires !Contains(marker, config[j].stopAnchor) && Contains(marker, config[j].contentAfter.value)
    requires NoneContains(middle, config[j].stopAnchor)
    requires Contains(stop, config[j].stopAnchor)
    ensures config[j].key in ScanBlocks(config, st, [start] + before + [marker] + middle + [stop]).results
    ensures ScanBlocks(config, st, [start] + before + [marker] + middle + [stop]).results[config[j].key]
      == Join("\n", Captured(middle))
  {
    ScanBlockOpens(config, st, start, j);
    var afterStart := ScanBlock(config, st, start);
    ScanBlocksOne(config, st, start);
    WaitRun(config, afterStart, before);
    ScanBlocksAppend(config, st, [start], before);
    assert ScanBlocks(config, st, [start] + before) == afterStart;
    ScanBlockWhileOpen(config, afterStart, marker);
    var ready := ScanBlock(config, afterStart, marker);
    assert ready == afterStart.(ready := true);
    var prefix := [start] + before + [marker];
    ScanBlocksSnoc(config, st, [start] + before, marker);
    assert ScanBlocks(config, st, prefix) == ready;
    CaptureRun(config, ready, middle);
    ScanBlocksAppend(config, st, prefix, middle);
    var filled := ScanBlocks(config, st, prefix + middle);
    assert filled == ready.(captured := Captured(middle)) by {
      assert [] + Captured(middle) == Captured(middle);
    }
    ScanBlocksSnoc(config, st, prefix + middle, stop);
    ScanBlockCloses(config, filled, stop);
  }

  /**
   * A value is stored only by a stop anchor: if a key had no value before a run of
   * blocks and has one after it, some block of the run holds the stop anchor of
   * that key's section. So a section still open at the end stores nothing.
   */
  lemma {:induction false} StoredOnlyAtStop(config: seq<Section>, st: ScanState, texts: seq<string>, key: string)
    requires key !in st.results && key in ScanBlocks(config, st, texts).results
    ensures exists k, i | 0 <= k < |texts| && 0 <= i < |config| ::
      config[i].key == key && Contains(texts[k], config[i].stopAnchor)
    decreases |texts|
  {
    var init := texts[..|texts| - 1];
    var before := ScanBlocks(config, st, init);
    var last := texts[|texts| - 1];
    if key in before.results {
      StoredOnlyAtStop(config, st, init, key);
      var k, i :| 0 <= k < |init| && 0 <= i < |config| && config[i].key == key && Contains(init[k], config[i].stopAnchor);
      assert texts[k] == init[k];
    } else {
      StoredAtStopStep(config, before, last, key);
    }
  }

  lemma StoredAtStopStep(config: seq<Section>, st: ScanState, text: string, key: string)
    requires key !in st.results && key in ScanBlock(config, st, text).results
    ensures exists i | 0 <= i < |config| :: config[i].key == key && Contains(text, config[i].stopAnchor)
  {
    assert ScanBlock(config, st, text).results == CloseStep(config, st, text).results;
    var i := st.current.value;
    assert config[i].key == key && Contains(text, config[i].stopAnchor);
  }

  // ---------------------------------------------------------------------------
  // process_logic_flags
  // ---------------------------------------------------------------------------

  const TransitionFlag := "Transition of Individuals Affected by Maximum Age Limitation"
  const CriminalHistoryFlag := "Criminal History and/or Background Investigations"
  const SafeguardsFlag := "Service_Plan_Safeguards_Flag"
  const FlagThreshold := 15

  /** No flag a pass writes is a section a later test of the same pass reads. */
  lemma FlagKeysDistinct()
    ensures TransitionFlag != "C_2_a_Criminal_History" && TransitionFlag != "D_1_b_Service_Plan_Safeguards"
    ensures CriminalHistoryFlag != "D_1_b_Service_Plan_Safeguards"
  {
    assert |TransitionFlag| != |"C_2_a_Criminal_History"| && |TransitionFlag| != |"D_1_b_Service_Plan_Safeguards"|;
    assert |CriminalHistoryFlag| != |"D_1_b_Service_Plan_Safeguards"|;
  }

  /** `len(data.get(key, ""))`. */
  function LengthOf(data: map<string, string>, key: string): nat {
    |Get(data, key).GetOr("")|
  }

  /** The transition flag for a transition-plan section of length `n`. */
  function TransitionValue(n: nat): string {
    if n < FlagThreshold then "Not applicable. There is no maximum age limit" else "Planning procedures are employed"
  }

  /** The criminal-history flag for a criminal-history section of length `n`. */
  function CriminalHistoryValue(n: nat): string {
    if n >= FlagThreshold then "Yes" else "No"
  }

  /** The safeguards flag for a safeguards section of length `n`. */
  function SafeguardsValue(n: nat): string {
    if n >= FlagThreshold then "Individuals may provide waiver." else "Individuals may not provide waiver."
  }

  /** The dictionary after `process_logic_flags`. */
  function LogicFlags(data: map<string, string>): (r: map<string, string>)
    ensures r.Keys == data.Keys + {TransitionFlag, CriminalHistoryFlag, SafeguardsFlag}
    ensures forall k | k in data && k !in {TransitionFlag, CriminalHistoryFlag, SafeguardsFlag} :: r[k] == data[k]
  {
    data[TransitionFlag := TransitionValue(LengthOf(data, "B_1_c_Transition_Plan"))]
        [CriminalHistoryFlag := CriminalHistoryValue(LengthOf(data, "C_2_a_Criminal_History"))]
        [SafeguardsFlag := SafeguardsValue(LengthOf(data, "D_1_b_Service_Plan_Safeguards"))]
  }

  /**
   * Each flag is decided by its section's length against 15, a missing section
   * counting as the empty string.
   */
  lemma LogicFlagsThresholds(data: map<string, string>)
    ensures LogicFlags(data)[TransitionFlag] == "Planning procedures are employed"
      <==> "B_1_c_Transition_Plan" in data && |data["B_1_c_Transition_Plan"]| >= 15
    ensures LogicFlags(data)[CriminalHistoryFlag] == "Yes"
      <==> "C_2_a_Criminal_History" in data && |data["C_2_a_Criminal_History"]| >= 15
    ensures LogicFlags(data)[SafeguardsFlag] == "Individuals may provide waiver."
      <==> "D_1_b_Service_Plan_Safeguards" in data && |data["D_1_b_Service_Plan_Safeguards"]| >= 15
  {
  }

  /** The dictionary `process_logic_flags` updates in place. */
  class FieldDict {
    var data: map<string, string>

    constructor (initial: map<string, string>)
      ensures data == initial
    {
      data := initial;
    }

    /** `process_logic_flags(data)`: sets the three flags and returns the same dictionary. */
    method ProcessLogicFlags() returns (same: FieldDict)
      modifies this
      ensures same == this
      ensures data == LogicFlags(old(data))
    {
      FlagKeysDistinct();
      data := data[TransitionFlag := TransitionValue(LengthOf(data, "B_1_c_Transition_Plan"))];
      assert LengthOf(data, "C_2_a_Criminal_History") == LengthOf(old(data), "C_2_a_Criminal_History");
      data := data[CriminalHistoryFlag := CriminalHistoryValue(LengthOf(data, "C_2_a_Criminal_History"))];
      assert LengthOf(data, "D_1_b_Service_Plan_Safeguards") == LengthOf(old(data), "D_1_b_Service_Plan_Safeguards");
      data := data[SafeguardsFlag := SafeguardsValue(LengthOf(data, "D_1_b_Service_Plan_Safeguards"))];
      same := this;
    }
  }

  // ---------------------------------------------------------------------------
  // extract_waiver_info
  // ---------------------------------------------------------------------------

  /**
   * The outcome of each regular-expression search of `extract_waiver_info`: the
   * captured group, or `None` when the pattern does not match, and whether each
   * of the three request phrases occurs.
   */
  datatype WaiverMatches = WaiverMatches(
    state: Option<string>,
    programTitle: Option<string>,
    proposedEffectiveDate: Option<string>,
    approvedEffectiveDate: Option<string>,
    amendedEffectiveDate: Option<string>,
    requestForAmendment: bool,
    requestForRenewal: bool,
    applicationForNew: bool,
    applicationNumber: Option<string>)

  const NotFound := "Not Found"

  /** `m.group(1).strip() if m else "Not Found"`. */
  function Field(m: Option<string>): string {
    if m.Some? then Strip(m.value) else NotFound
  }

  /** The `if`/`elif` chain of the application type. */
  function ApplicationType(m: WaiverMatches): string {
    if m.requestForAmendment then "Amendment"
    else if m.requestForRenewal then "Renewal"
    else if m.applicationForNew then "New"
    else NotFound
  }

  /** The dictionary `extract_waiver_info` returns. */
  function WaiverInfo(m: WaiverMatches): map<string, string> {
    map[
      "State" := Field(m.state),
      "Program Title" := Field(m.programTitle),
      "Proposed Effective Date" := Field(m.proposedEffectiveDate),
      "Approved Effective Date" := Field(m.approvedEffectiveDate),
      "Approved Effective Date of Waiver being Amended" := Field(m.amendedEffectiveDate),
      "Application Type" := ApplicationType(m),
      "Application Number" := Field(m.applicationNumber)]
  }

  /** Every one of the seven fields is present. */
  lemma WaiverInfoKeys(m: WaiverMatches)
    ensures WaiverInfo(m).Keys == {"State", "Program Title", "Proposed Effective Date", "Approved Effective Date",
      "Approved Effective Date of Waiver being Amended", "Application Type", "Application Number"}
  {
  }

  /** A field whose pattern does not match is `"Not Found"`. */
  lemma WaiverInfoUnmatched(m: WaiverMatches)
    ensures m.state.None? ==> WaiverInfo(m)["State"] == NotFound
    ensures m.programTitle.None? ==> WaiverInfo(m)["Program Title"] == NotFound
    ensures m.proposedEffectiveDate.None? ==> WaiverInfo(m)["Proposed Effective Date"] == NotFound
    ensures m.approvedEffectiveDate.None? ==> WaiverInfo(m)["Approved Effective Date"] == NotFound
    ensures m.amendedEffectiveDate.None? ==> WaiverInfo(m)["Approved Effective Date of Waiver being Amended"] == NotFound
    ensures m.applicationNumber.None? ==> WaiverInfo(m)["Application Number"] == NotFound
  {
  }

  /** No whitespace at either end. */
  predicate Trimmed(v: string) {
    v == [] || (!IsSpace(v[0]) && !IsSpace(v[|v| - 1]))
  }

  lemma FieldTrimmed(g: Option<string>)
    ensures Trimmed(Field(g))
  {
    if g.Some? {
      StripShape(g.value);
    }
  }

  lemma ApplicationTypeTrimmed(m: WaiverMatches)
    ensures Trimmed(ApplicationType(m))
  {
    assert !IsSpace('A') && !IsSpace('R') && !IsSpace('N') && !IsSpace('t') && !IsSpace('l') && !IsSpace('d');
  }

  /** No value starts or ends with whitespace: matched groups are stripped. */
  lemma WaiverInfoTrimmed(m: WaiverMatches)
    ensures Trimmed(WaiverInfo(m)["State"]) && Trimmed(WaiverInfo(m)["Program Title"])
    ensures Trimmed(WaiverInfo(m)["Proposed Effective Date"]) && Trimmed(WaiverInfo(m)["Approved Effective Date"])
    ensures Trimmed(WaiverInfo(m)["Approved Effective Date of Waiver being Amended"])
    ensures Trimmed(WaiverInfo(m)["Application Type"]) && Trimmed(WaiverInfo(m)["Application Number"])
  {
    WaiverInfoFields(m);
    FieldTrimmed(m.state);
    FieldTrimmed(m.programTitle);
    FieldTrimmed(m.proposedEffectiveDate);
    FieldTrimmed(m.approvedEffectiveDate);
    FieldTrimmed(m.amendedEffectiveDate);
    FieldTrimmed(m.applicationNumber);
    ApplicationTypeTrimmed(m);
  }

  lemma WaiverInfoFields(m: WaiverMatches)
    ensures WaiverInfo(m)["State"] == Field(m.state) && WaiverInfo(m)["Program Title"] == Field(m.programTitle)
    ensures WaiverInfo(m)["Proposed Effective Date"] == Field(m.proposedEffectiveDate)
    ensures WaiverInfo(m)["Approved Effective Date"] == Field(m.approvedEffectiveDate)
    ensures WaiverInfo(m)["Approved Effective Date of Waiver being Amended"] == Field(m.amendedEffectiveDate)
    ensures WaiverInfo(m)["Application Type"] == ApplicationType(m)
    ensures WaiverInfo(m)["Application Number"] == Field(m.applicationNumber)
  {
  }

  /** Application type precedence: Amendment over Renewal over New. */
  lemma ApplicationTypePrecedence(m: WaiverMatches)
    ensures WaiverInfo(m)["Application Type"] == "Amendment" <==> m.requestForAmendment
    ensures WaiverInfo(m)["Application Type"] == "Renewal" <==> !m.requestForAmendment && m.requestForRenewal
    ensures WaiverInfo(m)["Application Type"] == "New"
      <==> !m.requestForAmendment && !m.requestForRenewal && m.applicationForNew
    ensures WaiverInfo(m)["Application Type"] == NotFound
      <==> !m.requestForAmendment && !m.requestForRenewal && !m.applicationForNew
  {
  }
}
