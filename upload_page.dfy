/**
 * The helpers of the single-PDF upload page: the entity map with its fallback,
 * the edited property form, the `extra` fields left out of the map, the
 * property dictionary sent to the graph store, and the page count of the
 * document list. The slug and the stored path are the `Slug` module's.
 */
module UploadPage {
  import opened Wrappers
  import opened Text
  import Slug

  /** A JSON object from extracted keys to graph property names, in its order. */
  type EntityMap = seq<(string, string)>

  /** `DEFAULT_ENTITY_MAP` */
  function DefaultEntityMap(): (m: EntityMap)
    ensures |m| == 12
  {
    [ ("State", "state"),
      ("Program Title", "program_title"),
      ("Waiver Number", "waiver_number"),
      ("Amendment Number", "amendment_number"),
      ("Draft ID", "draft_id"),
      ("Type of Request", "type_of_request"),
      ("Requested Approval Period", "requested_approval_period"),
      ("Type of Waiver", "type_of_waiver"),
      ("Proposed Effective Date of Waiver being Amended", "proposed_effective_date"),
      ("Approved Effective Date of Waiver being Amended", "amended_effective_date"),
      ("Approved Effective Date", "approved_effective_date"),
      ("PRA Disclosure Statement", "pra_disclosure_statement") ]
  }

  /** `json.loads(entity_map_text)`, where `None` stands for a `JSONDecodeError`: the default is used then. */
  function EntityMapOf(parsed: Option<EntityMap>): (m: EntityMap)
    ensures parsed.None? ==> m == DefaultEntityMap()
    ensures parsed.Some? ==> m == parsed.value
  {
    if parsed.Some? then parsed.value else DefaultEntityMap()
  }

  /** The extracted keys the entity map names. */
  function SourceKeys(entityMap: EntityMap): set<string> {
    set i | 0 <= i < |entityMap| :: entityMap[i].0
  }

  /** The property names the entity map names. */
  function DestKeys(entityMap: EntityMap): set<string> {
    set i | 0 <= i < |entityMap| :: entityMap[i].1
  }

  /**
   * The form: one text input per entry, prefilled with `extracted.get(src_key, "")`.
   * `typed` holds what the user changed, by source key; an input left alone keeps
   * its prefilled value. A later entry with the same property name wins.
   */
  function Edited(entityMap: EntityMap, extracted: map<string, string>, typed: map<string, string>): map<string, string>
    decreases |entityMap|
  {
    if entityMap == [] then map[]
    else
      var (src, dest) := entityMap[|entityMap| - 1];
      Edited(entityMap[..|entityMap| - 1], extracted, typed)[dest := Get(typed, src).GetOr(Get(extracted, src).GetOr(""))]
  }

  /** `{k: v for k, v in extracted.items() if k not in entity_map}` */
  function Extra(extracted: map<string, string>, entityMap: EntityMap): (extra: map<string, string>)
    ensures extra.Keys == extracted.Keys - SourceKeys(entityMap)
    ensures forall k | k in extra :: extra[k] == extracted[k]
  {
    map k | k in extracted && k !in SourceKeys(entityMap) :: extracted[k]
  }

  /** The six keys the page sets itself. */
  function FixedProps(docId: string, filename: string, storedPath: string, uploadedAt: string,
                      notes: string, extraJson: string): (m: map<string, string>)
    ensures m.Keys == FixedKeys
  {
    map["doc_id" := docId, "filename" := filename, "stored_path" := storedPath, "uploaded_at" := uploadedAt,
        "notes" := notes, "extra_json" := extraJson]
  }

  /** `props = dict(edited); props.update(fixed)` */
  function Props(edited: map<string, string>, fixed: map<string, string>): (props: map<string, string>)
    ensures props.Keys == edited.Keys + fixed.Keys
    ensures forall k | k in fixed :: props[k] == fixed[k]
    ensures forall k | k in edited && k !in fixed :: props[k] == edited[k]
  {
    edited + fixed
  }

  /**
   * What a submitted form saves: the stored path built from the edited state,
   * waiver number and approved date, and the properties. The date parser, the
   * clock and the JSON encoder are parameters.
   */
  function Submit(entityMap: EntityMap, extracted: map<string, string>, typed: map<string, string>,
                  parseDate: string -> Option<Slug.Date>, docId: string, filename: string,
                  uploadedAt: string, notes: string, dumps: map<string, string> -> string)
    : (r: (Slug.UploadPath, map<string, string>))
  {
    var edited := Edited(entityMap, extracted, typed);
    var approved := parseDate(Get(edited, "approved_effective_date").GetOr(""));
    var stored := Slug.BuildUploadPath(Get(edited, "state").GetOr(""), Get(edited, "waiver_number").GetOr(""),
                                       approved, filename);
    var fixed := FixedProps(docId, filename, Slug.PathText(stored), uploadedAt, notes, dumps(Extra(extracted, entityMap)));
    (stored, Props(edited, fixed))
  }

  /** `max((total_docs + page_size - 1) // page_size, 1)` */
  function TotalPages(totalDocs: nat, pageSize: nat): nat
    requires pageSize >= 1
  {
    var q := (totalDocs + pageSize - 1) / pageSize;
    if q > 1 then q else 1
  }

  // ---------------------------------------------------------------------------
  // Properties
  // ---------------------------------------------------------------------------

  /** The form has one property per distinct property name of the map, and nothing else. */
  lemma {:induction false} EditedKeys(entityMap: EntityMap, extracted: map<string, string>, typed: map<string, string>)
    ensures Edited(entityMap, extracted, typed).Keys == DestKeys(entityMap)
    decreases |entityMap|
  {
    if entityMap != [] {
      var init := entityMap[..|entityMap| - 1];
      EditedKeys(init, extracted, typed);
      assert DestKeys(entityMap) == DestKeys(init) + {entityMap[|entityMap| - 1].1} by {
        forall d | d in DestKeys(entityMap) ensures d in DestKeys(init) + {entityMap[|entityMap| - 1].1} {
          var i :| 0 <= i < |entityMap| && entityMap[i].1 == d;
          if i < |entityMap| - 1 {
            assert init[i].1 == d;
          }
        }
        forall d | d in DestKeys(init) ensures d in DestKeys(entityMap) {
          var i :| 0 <= i < |init| && init[i].1 == d;
          assert entityMap[i].1 == d;
        }
      }
    }
  }

  /**
   * A property untouched by the user holds the extracted value of the last entry
   * naming it, or `""` when nothing was extracted under that key.
   */
  lemma {:induction false} EditedValue(entityMap: EntityMap, extracted: map<string, string>, typed: map<string, string>, i: nat)
    requires i < |entityMap|
    requires forall j | i < j < |entityMap| :: entityMap[j].1 != entityMap[i].1
    ensures entityMap[i].1 in Edited(entityMap, extracted, typed)
    ensures Edited(entityMap, extracted, typed)[entityMap[i].1]
      == Get(typed, entityMap[i].0).GetOr(Get(extracted, entityMap[i].0).GetOr(""))
    decreases |entityMap|
  {
    if i < |entityMap| - 1 {
      var init := entityMap[..|entityMap| - 1];
      EditedValue(init, extracted, typed, i);
    }
  }

  /** Every extracted key is either mapped by the entity map or kept in `extra`, never both. */
  lemma ExtraPartitions(extracted: map<string, string>, entityMap: EntityMap)
    ensures forall k | k in extracted :: (k in Extra(extracted, entityMap)) != (k in SourceKeys(entityMap))
  {
  }

  /** The keys the page sets itself. */
  const FixedKeys := {"doc_id", "filename", "stored_path", "uploaded_at", "notes", "extra_json"}

  /** Each fixed key holds the value the page computed. */
  lemma FixedPropsValues(docId: string, filename: string, storedPath: string, uploadedAt: string,
                         notes: string, extraJson: string)
    ensures var m := FixedProps(docId, filename, storedPath, uploadedAt, notes, extraJson);
      && m["doc_id"] == docId && m["filename"] == filename && m["stored_path"] == storedPath
      && m["uploaded_at"] == uploadedAt && m["notes"] == notes && m["extra_json"] == extraJson
  {
  }

  /**
   * The fixed keys win over an edited value with the same name, and every other
   * edited value is kept.
   */
  lemma SubmitProps(entityMap: EntityMap, extracted: map<string, string>, typed: map<string, string>,
                    parseDate: string -> Option<Slug.Date>, docId: string, filename: string,
                    uploadedAt: string, notes: string, dumps: map<string, string> -> string)
    ensures var (stored, props) := Submit(entityMap, extracted, typed, parseDate, docId, filename, uploadedAt, notes, dumps);
      var edited := Edited(entityMap, extracted, typed);
      && props.Keys == edited.Keys + FixedKeys
      && props["doc_id"] == docId && props["filename"] == filename && props["notes"] == notes
      && props["uploaded_at"] == uploadedAt
      && props["stored_path"] == Slug.PathText(stored)
      && props["extra_json"] == dumps(Extra(extracted, entityMap))
      && (forall k | k in edited && k !in FixedKeys :: props[k] == edited[k])
      && stored.root == Slug.UPLOADS_DIR
  {
    var edited := Edited(entityMap, extracted, typed);
    var approved := parseDate(Get(edited, "approved_effective_date").GetOr(""));
    var stored := Slug.BuildUploadPath(Get(edited, "state").GetOr(""), Get(edited, "waiver_number").GetOr(""),
                                       approved, filename);
    var extraJson := dumps(Extra(extracted, entityMap));
    var fixed := FixedProps(docId, filename, Slug.PathText(stored), uploadedAt, notes, extraJson);
    FixedPropsValues(docId, filename, Slug.PathText(stored), uploadedAt, notes, extraJson);
    assert Submit(entityMap, extracted, typed, parseDate, docId, filename, uploadedAt, notes, dumps) == (stored, Props(edited, fixed));
  }

  /**
   * The page count is the ceiling of `total_docs / page_size`, and one for an
   * empty list: every document fits and the last page is not empty.
   */
  lemma TotalPagesIsCeiling(totalDocs: nat, pageSize: nat)
    requires pageSize >= 1
    ensures TotalPages(totalDocs, pageSize) >= 1
    ensures totalDocs <= TotalPages(totalDocs, pageSize) * pageSize
    ensures totalDocs == 0 || (TotalPages(totalDocs, pageSize) - 1) * pageSize < totalDocs
  {
    var n := totalDocs + pageSize - 1;
    var q := n / pageSize;
    DivisionBounds(n, pageSize);
    if q <= 1 {
      assert TotalPages(totalDocs, pageSize) == 1;
    } else {
      assert TotalPages(totalDocs, pageSize) == q;
      MulPred(q, pageSize);
    }
  }

  lemma DivisionBounds(n: nat, d: nat)
    requires d >= 1
    ensures (n / d) * d <= n < (n / d) * d + d
  {
  }

  lemma MulPred(q: nat, d: nat)
    requires q >= 1
    ensures (q - 1) * d == q * d - d
  {
  }
}
