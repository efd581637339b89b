/** Seed indexing (ingest_seeds.py): the text embedded for each seed case,
    its scalar metadata record, and the batch of ids, documents and
    metadata records sent to the vector store in one upsert. */
module IngestSeeds {
  import opened PyValues
  import GenerateSynthetic

  const SeedCasesDir: string := "./data/seed_cases"
  const ClinicalLabel: string := "Clinical Barriers: "
  const PhysicalLabel: string := "Physical Barriers: "
  const ReasoningLabel: string := "Reasoning: "
  const ChaosLabel: string := "Chaos Signals: "
  const PartSeparator: string := " | "
  const ItemSeparator: string := "; "

  // ---------------------------------------------------------------------
  // build_document_string

  /** A barrier field that may be a list or a string: a list of strings is
      joined with "; ", a string is taken as it is, a list holding anything
      else makes `join` raise, and any other value leaves the part out. */
  function ListOrStringPart(heading: string, v: Json): (r: Result<Option<string>>)
    ensures r == Ok(None) <==> !v.JArr? && !v.JStr?
    ensures r.Err? <==> v.JArr? && exists k :: 0 <= k < |v.items| && !v.items[k].JStr?
    ensures r.Ok? && r.value.Some? ==> StartsWith(r.value.value, heading)
  {
    match v
    case JArr(items) =>
      (match JoinStrs(ItemSeparator, items)
       case Ok(s) => Ok(Some(heading + s))
       case Err(e) => Err(e))
    case JStr(s) => Ok(Some(heading + s))
    case _ => Ok(None)
  }

  /** "Physical Barriers:" for a truthy value only; `+` raises on anything
      truthy that is not a string. */
  function PhysicalPart(v: Json): (r: Result<Option<string>>)
    ensures r == Ok(None) <==> !Truthy(v)
    ensures r.Ok? && r.value.Some? <==> v.JStr? && v.s != []
    ensures r.Ok? && r.value.Some? ==> r.value.value == PhysicalLabel + v.s
  {
    if !Truthy(v) then Ok(None)
    else if v.JStr? then Ok(Some(PhysicalLabel + v.s))
    else Err("TypeError: can only concatenate str (not \"" + TypeName(v) + "\") to str")
  }

  /** `for x in v`: a list gives its items, a string its characters, a dict
      its keys; anything else is not iterable. */
  function Iterate(v: Json): (r: Result<seq<Json>>)
    ensures r.Ok? <==> v.JArr? || v.JStr? || v.JObj?
    ensures v.JArr? ==> r == Ok(v.items)
    ensures v.JStr? ==> r.Ok? && |r.value| == |v.s|
    ensures v.JObj? ==> r.Ok? && |r.value| == |v.fields|
  {
    match v
    case JArr(items) => Ok(items)
    case JStr(s) => Ok(seq(|s|, k requires 0 <= k < |s| => JStr([s[k]])))
    case JObj(fields) => Ok(seq(|fields|, k requires 0 <= k < |fields| => JStr(fields[k].0)))
    case _ => Err("TypeError: '" + TypeName(v) + "' object is not iterable")
  }

  /** What one reasoning triple contributes: `situation [intent]` when at
      least one of the two is truthy, nothing otherwise; a triple that is
      not a dict has no `.get`. */
  function TripleSummary(t: Json): (r: Result<Option<string>>)
    ensures r.Ok? <==> t.JObj?
    ensures r.Ok? ==>
      (r.value.Some? <==> Truthy(Get(t, "situation", JStr("")).value) || Truthy(Get(t, "intent", JStr("")).value))
  {
    match Get(t, "situation", JStr(""))
    case Err(e) => Err(e)
    case Ok(situation) =>
      match Get(t, "intent", JStr(""))
      case Err(e) => Err(e)
      case Ok(intent) =>
        if Truthy(situation) || Truthy(intent) then Ok(Some(Str(situation) + " [" + Str(intent) + "]"))
        else Ok(None)
  }

  /** The present values, in order. */
  function Somes(os: seq<Option<string>>): (r: seq<string>)
    ensures |r| <= |os|
  {
    if os == [] then []
    else Somes(os[..|os| - 1]) + (if os[|os| - 1].Some? then [os[|os| - 1].value] else [])
  }

  /** Nothing is kept exactly when every entry is absent. */
  lemma {:induction false} SomesEmptyIff(os: seq<Option<string>>)
    ensures Somes(os) == [] <==> forall k :: 0 <= k < |os| ==> os[k].None?
  {
    if os != [] {
      var init := os[..|os| - 1];
      SomesEmptyIff(init);
      assert forall k :: 0 <= k < |init| ==> init[k] == os[k];
    }
  }

  lemma SomesSnoc(os: seq<Option<string>>, o: Option<string>)
    ensures Somes(os + [o]) == Somes(os) + (if o.Some? then [o.value] else [])
  {
    assert (os + [o])[..|os|] == os;
  }

  function Summaries(ts: seq<Json>): seq<Result<Option<string>>> {
    seq(|ts|, k requires 0 <= k < |ts| => TripleSummary(ts[k]))
  }

  /** The summaries of the triples that contribute, in order, or the first
      error. */
  function SummariesOf(ts: seq<Json>): Result<seq<string>> {
    match Collect(Summaries(ts))
    case Err(e) => Err(e)
    case Ok(os) => Ok(Somes(os))
  }

  /** `for triple in triples`, summarized. */
  function TripleSummaries(triples: Json): (r: Result<seq<string>>) {
    match Iterate(triples)
    case Err(e) => Err(e)
    case Ok(ts) => SummariesOf(ts)
  }

  /** "Reasoning:" appears only when some triple contributes. */
  function ReasoningPart(summaries: seq<string>): Option<string> {
    if summaries == [] then None else Some(ReasoningLabel + JoinWith(ItemSeparator, summaries))
  }

  /** A list of triples yields a "Reasoning:" part exactly when one of them
      contributes a summary. */
  lemma ReasoningPresentIff(ts: seq<Json>)
    requires TripleSummaries(JArr(ts)).Ok?
    ensures ReasoningPart(TripleSummaries(JArr(ts)).value).Some?
        <==> exists k :: 0 <= k < |ts| && TripleSummary(ts[k]).Ok? && TripleSummary(ts[k]).value.Some?
  {
    var rs := Summaries(ts);
    var os := Collect(rs).value;
    assert TripleSummaries(JArr(ts)) == Ok(Somes(os));
    SomesEmptyIff(os);
    if Somes(os) != [] {
      var k :| 0 <= k < |os| && os[k].Some?;
      assert rs[k] == Ok(os[k]);
    } else {
      forall k | 0 <= k < |ts|
        ensures !(TripleSummary(ts[k]).Ok? && TripleSummary(ts[k]).value.Some?)
      {
        assert rs[k] == Ok(os[k]);
      }
    }
  }

  /** The four parts of a document, each present or left out. */
  datatype Parts = Parts(clinical: Option<string>, physical: Option<string>,
                         reasoning: Option<string>, chaos: Option<string>)

  function Present(o: Option<string>): seq<string> {
    if o.Some? then [o.value] else []
  }

  /** The parts in the fixed order Clinical, Physical, Reasoning, Chaos. */
  function PartList(p: Parts): seq<string> {
    Present(p.clinical) + Present(p.physical) + Present(p.reasoning) + Present(p.chaos)
  }

  /** `data.get(section, {}).get(field, default)`. */
  function Field(data: Json, section: string, field: string, default: Json): Result<Json> {
    match Get(data, section, JObj([]))
    case Err(e) => Err(e)
    case Ok(fields) => Get(fields, field, default)
  }

  /** The clinical barriers, defaulting to an empty list. */
  function ClinicalOf(data: Json): Result<Option<string>> {
    match Field(data, "clinical_logic", "clinical_barriers", JArr([]))
    case Err(e) => Err(e)
    case Ok(v) => ListOrStringPart(ClinicalLabel, v)
  }

  /** The physical barriers, defaulting to an empty string. */
  function PhysicalOf(data: Json): Result<Option<string>> {
    match Field(data, "environmental_logic", "physical_barriers", JStr(""))
    case Err(e) => Err(e)
    case Ok(v) => PhysicalPart(v)
  }

  /** The reasoning triples, defaulting to an empty list. */
  function ReasoningOf(data: Json): Result<Option<string>> {
    match Get(data, "reasoning_trace_triples", JArr([]))
    case Err(e) => Err(e)
    case Ok(triples) =>
      match TripleSummaries(triples)
      case Err(e) => Err(e)
      case Ok(summaries) => Ok(ReasoningPart(summaries))
  }

  /** The chaos signals, defaulting to an empty list. */
  function ChaosOf(data: Json): Result<Option<string>> {
    match Get(data, "unscripted_chaos_signals", JArr([]))
    case Err(e) => Err(e)
    case Ok(v) => ListOrStringPart(ChaosLabel, v)
  }

  /** The four parts, read in the script's order; the first exception
      ends the build. */
  function DocumentParts(data: Json): Result<Parts> {
    match ClinicalOf(data)
    case Err(e) => Err(e)
    case Ok(c) =>
      match PhysicalOf(data)
      case Err(e) => Err(e)
      case Ok(p) =>
        match ReasoningOf(data)
        case Err(e) => Err(e)
        case Ok(x) =>
          match ChaosOf(data)
          case Err(e) => Err(e)
          case Ok(y) => Ok(Parts(c, p, x, y))
  }

  /** `build_document_string`: the present parts joined with " | ". */
  function DocumentString(data: Json): (r: Result<string>)
    ensures r.Ok? <==> DocumentParts(data).Ok?
    ensures !data.JObj? ==> r.Err?
  {
    match DocumentParts(data)
    case Err(e) => Err(e)
    case Ok(p) => Ok(JoinWith(PartSeparator, PartList(p)))
  }

  /** Of a seed with none of the fields only the two list parts remain,
      each built from its empty-list default. */
  lemma EmptySeedParts()
    ensures DocumentParts(JObj([])) == Ok(Parts(Some(ClinicalLabel), None, None, Some(ChaosLabel)))
  {
    var empty := JObj([]);
    assert JoinStrs(ItemSeparator, []) == Ok("");
    assert ClinicalOf(empty) == Ok(Some(ClinicalLabel)) by {
      assert ClinicalLabel + "" == ClinicalLabel;
    }
    assert ReasoningOf(empty) == Ok(None) by {
      assert Summaries([]) == [];
    }
    assert ChaosOf(empty) == Ok(Some(ChaosLabel)) by {
      assert ChaosLabel + "" == ChaosLabel;
    }
  }

  /** The document of a seed with none of the fields. */
  lemma EmptySeedDocument()
    ensures DocumentString(JObj([])) == Ok("Clinical Barriers:  | Chaos Signals: ")
  {
    var joined := ClinicalLabel + PartSeparator + ChaosLabel;
    assert DocumentString(JObj([])) == Ok(joined) by {
      EmptySeedParts();
      var p := Parts(Some(ClinicalLabel), None, None, Some(ChaosLabel));
      assert PartList(p) == [ClinicalLabel, ChaosLabel];
      assert JoinWith(PartSeparator, [ClinicalLabel, ChaosLabel]) == joined by {
        assert [ClinicalLabel, ChaosLabel][1..] == [ChaosLabel];
      }
    }
    EmptySeedText();
  }

  lemma EmptySeedText()
    ensures ClinicalLabel + PartSeparator + ChaosLabel == "Clinical Barriers:  | Chaos Signals: "
  {
  }

  /** The clinical part, when present, opens the document, and the chaos
      part, when present, closes it. */
  lemma DocumentOrder(data: Json)
    requires DocumentParts(data).Ok?
    ensures var p := DocumentParts(data).value;
      && (p.clinical.Some? ==> StartsWith(DocumentString(data).value, p.clinical.value))
      && (p.chaos.Some? ==> EndsWith(DocumentString(data).value, p.chaos.value))
  {
    var p := DocumentParts(data).value;
    var parts := PartList(p);
    if p.clinical.Some? {
      assert parts[0] == p.clinical.value;
      JoinStartsWith(PartSeparator, parts);
    }
    if p.chaos.Some? {
      assert parts[|parts| - 1] == p.chaos.value;
      JoinEndsWith(PartSeparator, parts);
    }
  }

  /** `triple_summaries` built by the script's loop. */
  method SummarizeTriples(ts: seq<Json>) returns (r: Result<seq<string>>)
    ensures r == SummariesOf(ts)
  {
    var rs := Summaries(ts);
    var summaries: seq<string> := [];
    ghost var os: seq<Option<string>> := [];
    var i := 0;
    assert rs[..0] == [];
    while i < |ts|
      invariant 0 <= i <= |ts|
      invariant Collect(rs[..i]) == Ok(os) && summaries == Somes(os)
    {
      var summary := TripleSummary(ts[i]);
      assert summary == rs[i];
      if summary.Err? {
        CollectFirstErr(rs, i, os);
        return Err(summary.msg);
      }
      CollectSnoc(rs, i, os);
      SomesSnoc(os, summary.value);
      if summary.value.Some? {
        summaries := summaries + [summary.value.value];
      }
      os := os + [summary.value];
      i := i + 1;
    }
    assert rs[..i] == rs;
    r := Ok(summaries);
  }

  /** `build_document_string`, appending to `parts` as the script does. */
  method BuildDocumentString(data: Json) returns (r: Result<string>)
    ensures r == DocumentString(data)
  {
    var clinical := ClinicalOf(data);
    if clinical.Err? { return Err(clinical.msg); }
    var parts := Present(clinical.value);
    var physical := PhysicalOf(data);
    if physical.Err? { return Err(physical.msg); }
    parts := parts + Present(physical.value);
    var triples := Get(data, "reasoning_trace_triples", JArr([])).value;
    var ts := Iterate(triples);
    if ts.Err? { return Err(ts.msg); }
    var summaries := SummarizeTriples(ts.value);
    if summaries.Err? { return Err(summaries.msg); }
    var reasoning := ReasoningPart(summaries.value);
    assert ReasoningOf(data) == Ok(reasoning);
    parts := parts + Present(reasoning);
    var chaos := ChaosOf(data);
    if chaos.Err? { return Err(chaos.msg); }
    parts := parts + Present(chaos.value);
    assert DocumentParts(data) == Ok(Parts(clinical.value, physical.value, reasoning, chaos.value));
    r := Ok(JoinWith(PartSeparator, parts));
  }

  // ---------------------------------------------------------------------
  // build_metadata_dict

  const MetadataKeys: set<string> := {"complexity_score", "outcome", "has_skilled_need", "primary_friction", "raw_json"}

  /** `int(header.get("complexity_score", 0))`, with 0 when `int` raises
      ValueError or TypeError. */
  function ComplexityScore(v: Json): (r: int)
    ensures IntOf(v).Some? ==> r == IntOf(v).value
    ensures IntOf(v).None? ==> r == 0
  {
    match IntOf(v)
    case Some(i) => i
    case None => 0
  }

  /** "Yes" exactly for the values whose `str()`, stripped and lower-cased,
      is "yes", "true" or "1". */
  function SkilledNeed(v: Json): (r: string)
    ensures r == "Yes" || r == "No"
  {
    var t := Lower(Strip(Str(v)));
    if t == "yes" || t == "true" || t == "1" then "Yes" else "No"
  }

  /** A boolean `skilled_need_verified` reads as its truth value. */
  lemma SkilledNeedBool(b: bool)
    ensures SkilledNeed(JBool(b)) == (if b then "Yes" else "No")
  {
    StripOfTrimmed(Str(JBool(b)));
  }

  /** The number 1 reads as "Yes"; 0 reads as "No". */
  lemma SkilledNeedDigit()
    ensures SkilledNeed(JInt(1)) == "Yes" && SkilledNeed(JInt(0)) == "No"
  {
    StripOfTrimmed("1");
    StripOfTrimmed("0");
  }

  /** A string is read with surrounding whitespace ignored and in any
      case: "Yes" exactly for "yes", "true" and "1". */
  lemma SkilledNeedWord(w1: string, core: string, w2: string)
    requires AllSpace(w1) && AllSpace(w2) && Trimmed(core)
    ensures SkilledNeed(JStr(w1 + core + w2)) == (if Lower(core) in {"yes", "true", "1"} then "Yes" else "No")
  {
    StripAround(w1, core, w2);
  }

  /** The first entry of a non-empty list, the `str()` of any other truthy
      value, and "Unknown" for an empty list, an empty string or a missing
      field. */
  function PrimaryFriction(v: Json): (r: Json)
    ensures !Truthy(v) ==> r == JStr("Unknown")
    ensures v.JArr? && v.items != [] ==> r == v.items[0]
    ensures Truthy(v) && !v.JArr? ==> r == JStr(Str(v))
  {
    if v.JArr? then (if v.items != [] then v.items[0] else JStr("Unknown"))
    else if Truthy(v) then JStr(Str(v))
    else JStr("Unknown")
  }

  /** The three sections a metadata record reads: `case_header`,
      `clinical_logic` and `environmental_logic`, each defaulting to {}. */
  function Sections(data: Json): Result<(Json, Json, Json)> {
    match Get(data, "case_header", JObj([]))
    case Err(e) => Err(e)
    case Ok(header) =>
      var clinical := Get(data, "clinical_logic", JObj([])).value;
      var environmental := Get(data, "environmental_logic", JObj([])).value;
      Ok((header, clinical, environmental))
  }

  /** The five entries, read from sections that are all dicts. */
  function Record(header: Json, clinical: Json, environmental: Json, rawJson: string): (r: map<string, Json>)
    requires header.JObj? && clinical.JObj? && environmental.JObj?
    ensures r.Keys == MetadataKeys
    ensures r["raw_json"] == JStr(rawJson)
  {
    map[
      "complexity_score" := JInt(ComplexityScore(Get(header, "complexity_score", JInt(0)).value)),
      "outcome" := JStr(Str(Get(header, "outcome", JStr("Unknown")).value)),
      "has_skilled_need" := JStr(SkilledNeed(Get(clinical, "skilled_need_verified", JStr("No")).value)),
      "primary_friction" := PrimaryFriction(Get(environmental, "modification_type", JStr("")).value),
      "raw_json" := JStr(rawJson)]
  }

  /** `build_metadata_dict`: five scalar entries, `raw_json` passed
      through. The `.get` calls run header, header, clinical, environmental;
      the AttributeError of the first section that is not a dict is not
      caught. */
  function MetadataDict(data: Json, rawJson: string): (r: Result<map<string, Json>>)
    ensures r.Ok? <==> (data.JObj? && Sections(data).value.0.JObj?
                        && Sections(data).value.1.JObj? && Sections(data).value.2.JObj?)
    ensures r.Ok? ==> r.value == Record(Sections(data).value.0, Sections(data).value.1, Sections(data).value.2, rawJson)
  {
    match Sections(data)
    case Err(e) => Err(e)
    case Ok((header, clinical, environmental)) =>
      if !header.JObj? then Err(Get(header, "complexity_score", JInt(0)).msg)
      else if !clinical.JObj? then Err(Get(clinical, "skilled_need_verified", JStr("No")).msg)
      else if !environmental.JObj? then Err(Get(environmental, "modification_type", JStr("")).msg)
      else Ok(Record(header, clinical, environmental, rawJson))
  }

  /** The record has exactly the five keys the vector store is given. */
  lemma RecordKeys(header: Json, clinical: Json, environmental: Json, rawJson: string)
    requires header.JObj? && clinical.JObj? && environmental.JObj?
    ensures Record(header, clinical, environmental, rawJson).Keys == MetadataKeys
  {
  }

  /** Every entry is a scalar: the score an int, the outcome and the skilled
      need strings, the latter "Yes" or "No"; `raw_json` is passed through. */
  lemma RecordValues(header: Json, clinical: Json, environmental: Json, rawJson: string)
    requires header.JObj? && clinical.JObj? && environmental.JObj?
    ensures var m := Record(header, clinical, environmental, rawJson);
      && m["raw_json"] == JStr(rawJson)
      && m["complexity_score"].JInt?
      && m["outcome"].JStr?
      && (m["has_skilled_need"] == JStr("Yes") || m["has_skilled_need"] == JStr("No"))
  {
  }

  /** A missing score is 0, and so is one `int` cannot read. */
  lemma ComplexityFallback(header: seq<(string, Json)>)
    requires Lookup(header, "complexity_score").None? || IntOf(Lookup(header, "complexity_score").value).None?
    ensures ComplexityScore(Get(JObj(header), "complexity_score", JInt(0)).value) == 0
  {
  }

  /** What the ingest stores is what the generator retrieves: the payload of
      an ingested seed decodes back to the seed. */
  lemma SeedRetrievable(data: Json, dumps: Json -> string, loads: string -> Decoded)
    requires MetadataDict(data, dumps(data)).Ok?
    requires dumps(data) != [] && loads(dumps(data)) == Parsed(data)
    ensures GenerateSynthetic.PayloadOf(MetadataDict(data, dumps(data)).value, loads) == GenerateSynthetic.Keep(data)
  {
    var (header, clinical, environmental) := Sections(data).value;
    RecordValues(header, clinical, environmental, dumps(data));
  }

  // ---------------------------------------------------------------------
  // ingest_seed_cases

  /** `[f for f in os.listdir(SEED_CASES_DIR) if f.endswith(".json")]`, in
      listing order. */
  function SeedFiles(listing: seq<string>): seq<string> {
    WithSuffix(listing, ".json")
  }

  function SeedPath(filename: string): string {
    SeedCasesDir + "/" + filename
  }

  /** `data.get("case_header", {}).get("case_id", filename.replace(".json", ""))`. */
  function CaseId(data: Json, filename: string): (r: Result<Json>)
    ensures r.Ok? ==> data.JObj?
    ensures data.JObj? && Lookup(data.fields, "case_header").None? ==> r == Ok(JStr(ReplaceAll(filename, ".json", "")))
  {
    match Get(data, "case_header", JObj([]))
    case Err(e) => Err(e)
    case Ok(header) => Get(header, "case_id", JStr(ReplaceAll(filename, ".json", "")))
  }

  lemma {:induction false} ExtensionRemoved(stem: string)
    requires forall k :: 0 <= k < |stem| ==> stem[k] != '.'
    ensures ReplaceAll(stem + ".json", ".json", "") == stem
    decreases |stem|
  {
    if stem == [] {
      assert stem + ".json" == ".json";
      assert ReplaceAll(".json", ".json", "") == "" + ReplaceAll("", ".json", "");
    } else {
      var s := stem + ".json";
      assert s[0] == stem[0] && s[0] != '.';
      assert !StartsWith(s, ".json");
      assert s[1..] == stem[1..] + ".json";
      ExtensionRemoved(stem[1..]);
      assert [stem[0]] + stem[1..] == stem;
    }
  }

  /** A seed without a case id is filed under its file name without the
      extension. */
  lemma CaseIdFallback(stem: string, header: seq<(string, Json)>)
    requires forall k :: 0 <= k < |stem| ==> stem[k] != '.'
    requires Lookup(header, "case_id").None?
    ensures CaseId(JObj([("case_header", JObj(header))]), stem + ".json") == Ok(JStr(stem))
  {
    ExtensionRemoved(stem);
    var data := JObj([("case_header", JObj(header))]);
    assert Lookup(data.fields, "case_header") == Some(JObj(header));
  }

  datatype Seed = Seed(id: Json, document: string, metadata: map<string, Json>)

  /** One file of the listing: loaded (`load` opens and decodes a path) and
      turned into its id, document and metadata, in the script's order. */
  function SeedOf(filename: string, load: string -> Result<Json>, dumps: Json -> string): (r: Result<Seed>)
    ensures r.Ok? ==> load(SeedPath(filename)).Ok?
    ensures r.Ok? ==> r.value.metadata.Keys == MetadataKeys
                      && r.value.metadata["raw_json"] == JStr(dumps(load(SeedPath(filename)).value))
  {
    match load(SeedPath(filename))
    case Err(e) => Err(e)
    case Ok(data) =>
      match CaseId(data, filename)
      case Err(e) => Err(e)
      case Ok(id) =>
        match DocumentString(data)
        case Err(e) => Err(e)
        case Ok(document) =>
          match MetadataDict(data, dumps(data))
          case Err(e) => Err(e)
          case Ok(metadata) => Ok(Seed(id, document, metadata))
  }

  /** An entry is built from its file's contents alone. */
  lemma SeedOfParts(filename: string, load: string -> Result<Json>, dumps: Json -> string)
    requires SeedOf(filename, load, dumps).Ok?
    ensures var data := load(SeedPath(filename)).value;
      var seed := SeedOf(filename, load, dumps).value;
      && load(SeedPath(filename)).Ok?
      && CaseId(data, filename) == Ok(seed.id)
      && DocumentString(data) == Ok(seed.document)
      && MetadataDict(data, dumps(data)) == Ok(seed.metadata)
  {
  }

  /** `SeedOf` with the file system and the serializer fixed. */
  function Loader(load: string -> Result<Json>, dumps: Json -> string): string -> Result<Seed> {
    (filename: string) => SeedOf(filename, load, dumps)
  }

  /** What a run hands the vector store: nothing when there are no seed
      files, the three parallel lists otherwise, or the exception that
      stopped the run. */
  datatype Ingestion =
    | NoSeedFiles
    | Upserted(ids: seq<Json>, documents: seq<string>, metadatas: seq<map<string, Json>>)
    | Failed(error: string)

  function SeedResults(files: seq<string>, seedOf: string -> Result<Seed>): seq<Result<Seed>> {
    seq(|files|, k requires 0 <= k < |files| => seedOf(files[k]))
  }

  function Ids(seeds: seq<Seed>): seq<Json> {
    seq(|seeds|, k requires 0 <= k < |seeds| => seeds[k].id)
  }

  function Documents(seeds: seq<Seed>): seq<string> {
    seq(|seeds|, k requires 0 <= k < |seeds| => seeds[k].document)
  }

  function Metadatas(seeds: seq<Seed>): seq<map<string, Json>> {
    seq(|seeds|, k requires 0 <= k < |seeds| => seeds[k].metadata)
  }

  lemma ListsSnoc(seeds: seq<Seed>, seed: Seed)
    ensures Ids(seeds + [seed]) == Ids(seeds) + [seed.id]
    ensures Documents(seeds + [seed]) == Documents(seeds) + [seed.document]
    ensures Metadatas(seeds + [seed]) == Metadatas(seeds) + [seed.metadata]
  {
    assert Ids(seeds + [seed]) == Ids(seeds) + [seed.id];
    assert Documents(seeds + [seed]) == Documents(seeds) + [seed.document];
    assert Metadatas(seeds + [seed]) == Metadatas(seeds) + [seed.metadata];
  }

  /** `ingest_seed_cases` once the listing is read, with `seedOf` building
      one file's entry. */
  function Ingest(listing: seq<string>, seedOf: string -> Result<Seed>): (r: Ingestion)
    ensures r.NoSeedFiles? <==> SeedFiles(listing) == []
    ensures r.Upserted? ==> |r.ids| == |r.documents| == |r.metadatas| == |SeedFiles(listing)|
  {
    var files := SeedFiles(listing);
    if files == [] then NoSeedFiles
    else
      match Collect(SeedResults(files, seedOf))
      case Err(e) => Failed(e)
      case Ok(seeds) => Upserted(Ids(seeds), Documents(seeds), Metadatas(seeds))
  }

  /** The upserted lists run in lockstep: one entry per seed file, in
      listing order, the k-th of each list coming from the k-th file. */
  lemma IngestLockstep(listing: seq<string>, seedOf: string -> Result<Seed>)
    requires Ingest(listing, seedOf).Upserted?
    ensures var r := Ingest(listing, seedOf);
      var files := SeedFiles(listing);
      && |r.ids| == |r.documents| == |r.metadatas| == |files| > 0
      && forall k :: 0 <= k < |files| ==> seedOf(files[k]) == Ok(Seed(r.ids[k], r.documents[k], r.metadatas[k]))
  {
    var files := SeedFiles(listing);
    var rs := SeedResults(files, seedOf);
    var seeds := Collect(rs).value;
    assert forall k :: 0 <= k < |files| ==> rs[k] == Ok(seeds[k]);
  }

  /** A run stops exactly when some seed file cannot be loaded or turned
      into an entry; then nothing is upserted. */
  lemma IngestFailsIff(listing: seq<string>, seedOf: string -> Result<Seed>)
    ensures Ingest(listing, seedOf).Failed?
        <==> SeedFiles(listing) != [] && exists k :: 0 <= k < |SeedFiles(listing)| && seedOf(SeedFiles(listing)[k]).Err?
  {
    var files := SeedFiles(listing);
    var rs := SeedResults(files, seedOf);
    assert forall k :: 0 <= k < |files| ==> rs[k] == seedOf(files[k]);
  }

  /** The one upsert is skipped exactly when no file name ends in ".json". */
  lemma NoSeedFilesIff(listing: seq<string>, seedOf: string -> Result<Seed>)
    ensures Ingest(listing, seedOf).NoSeedFiles? <==> forall f :: f in listing ==> !EndsWith(f, ".json")
  {
    var files := SeedFiles(listing);
    if files != [] {
      assert files[0] in files;
    }
  }

  /** The body of the script's loop: one file loaded and turned into its
      entry. */
  method LoadSeed(filename: string, load: string -> Result<Json>, dumps: Json -> string) returns (r: Result<Seed>)
    ensures r == SeedOf(filename, load, dumps)
  {
    var filepath := SeedPath(filename);
    var data := load(filepath);
    if data.Err? { return Err(data.msg); }
    var caseId := CaseId(data.value, filename);
    if caseId.Err? { return Err(caseId.msg); }
    var document := BuildDocumentString(data.value);
    if document.Err? { return Err(document.msg); }
    var rawJson := dumps(data.value);
    var metadata := MetadataDict(data.value, rawJson);
    if metadata.Err? { return Err(metadata.msg); }
    r := Ok(Seed(caseId.value, document.value, metadata.value));
  }

  /** `ingest_seed_cases`: the loop appending to `ids`, `documents` and
      `metadatas`, then the single upsert. */
  method IngestSeedCases(listing: seq<string>, load: string -> Result<Json>, dumps: Json -> string)
    returns (r: Ingestion)
    ensures r == Ingest(listing, Loader(load, dumps))
  {
    var files := SeedFiles(listing);
    if files == [] {
      return NoSeedFiles;
    }
    ghost var rs := SeedResults(files, Loader(load, dumps));
    ghost var seeds: seq<Seed> := [];
    var ids: seq<Json> := [];
    var documents: seq<string> := [];
    var metadatas: seq<map<string, Json>> := [];
    var i := 0;
    assert rs[..0] == [];
    while i < |files|
      invariant 0 <= i <= |files|
      invariant Collect(rs[..i]) == Ok(seeds)
      invariant ids == Ids(seeds) && documents == Documents(seeds) && metadatas == Metadatas(seeds)
    {
      var seed := LoadSeed(files[i], load, dumps);
      assert seed == rs[i];
      if seed.Err? {
        CollectFirstErr(rs, i, seeds);
        return Failed(seed.msg);
      }
      CollectSnoc(rs, i, seeds);
      ListsSnoc(seeds, seed.value);
      ids := ids + [seed.value.id];
      documents := documents + [seed.value.document];
      metadatas := metadatas + [seed.value.metadata];
      seeds := seeds + [seed.value];
      i := i + 1;
    }
    assert rs[..i] == rs;
    r := Upserted(ids, documents, metadatas);
  }
}
