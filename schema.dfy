/** The structural contract of a generated case: the four Pydantic models of
    generate_synthetic.py, their validation of a decoded JSON document, and
    `model_dump`. Validation checks what the models declare and nothing
    more: enum-restricted fields, required string fields, list-typed formats.
    No list length is constrained. */
module Schema {
  import opened PyValues

  datatype Impact = Improves | Worsens | Unchanged
  datatype Adoption = Positive | Negative | AdoptionUnchanged
  datatype Category = Passive | Proactive | Overstep

  datatype StateLogEntry = StateLogEntry(
    eventDescription: string,
    clinicalImpact: Impact,
    environmentalImpact: Impact,
    serviceAdoptionImpact: Adoption,
    eddDelta: string,
    aiAssumedBottleneck: string)

  datatype ReasoningTriple = ReasoningTriple(
    situation: string,
    actionTaken: string,
    taxonomyCategory: string,
    tacticalFieldIntent: string)

  datatype RLScenarioOption = RLScenarioOption(
    aiIntendedCategory: Category,
    description: string,
    rationale: string)

  datatype SyntheticCaseOutput = SyntheticCaseOutput(
    stateLog: seq<StateLogEntry>,
    triples: seq<ReasoningTriple>,
    rlScenario: seq<RLScenarioOption>,
    narrativeSummary: string)

  // ---------------------------------------------------------------------
  // Literal values

  function ImpactText(i: Impact): string {
    match i
    case Improves => "Improves"
    case Worsens => "Worsens"
    case Unchanged => "Unchanged"
  }

  function AdoptionText(a: Adoption): string {
    match a
    case Positive => "Positive"
    case Negative => "Negative"
    case AdoptionUnchanged => "Unchanged"
  }

  function CategoryText(c: Category): string {
    match c
    case Passive => "Passive"
    case Proactive => "Proactive"
    case Overstep => "Overstep"
  }

  /** `Literal["Improves", "Worsens", "Unchanged"]`: exactly one of the three
      strings. */
  function ParseImpact(v: Json): (r: Option<Impact>)
    ensures r.Some? <==> v in {JStr("Improves"), JStr("Worsens"), JStr("Unchanged")}
    ensures r.Some? ==> v == JStr(ImpactText(r.value))
  {
    if v == JStr("Improves") then Some(Improves)
    else if v == JStr("Worsens") then Some(Worsens)
    else if v == JStr("Unchanged") then Some(Unchanged)
    else None
  }

  function ParseAdoption(v: Json): (r: Option<Adoption>)
    ensures r.Some? <==> v in {JStr("Positive"), JStr("Negative"), JStr("Unchanged")}
    ensures r.Some? ==> v == JStr(AdoptionText(r.value))
  {
    if v == JStr("Positive") then Some(Positive)
    else if v == JStr("Negative") then Some(Negative)
    else if v == JStr("Unchanged") then Some(AdoptionUnchanged)
    else None
  }

  function ParseCategory(v: Json): (r: Option<Category>)
    ensures r.Some? <==> v in {JStr("Passive"), JStr("Proactive"), JStr("Overstep")}
    ensures r.Some? ==> v == JStr(CategoryText(r.value))
  {
    if v == JStr("Passive") then Some(Passive)
    else if v == JStr("Proactive") then Some(Proactive)
    else if v == JStr("Overstep") then Some(Overstep)
    else None
  }

  lemma ImpactTextParses(i: Impact)
    ensures ParseImpact(JStr(ImpactText(i))) == Some(i)
  {
  }

  lemma AdoptionTextParses(a: Adoption)
    ensures ParseAdoption(JStr(AdoptionText(a))) == Some(a)
  {
  }

  lemma CategoryTextParses(c: Category)
    ensures ParseCategory(JStr(CategoryText(c))) == Some(c)
  {
  }

  // ---------------------------------------------------------------------
  // Error texts: the location of the first violation and the offending input

  function Missing(loc: string): string {
    loc + "\n  Field required"
  }

  /** Location of field `key` inside the element at `at` ("" at the top). */
  function FieldLoc(at: string, key: string): string {
    if at == "" then key else at + "." + key
  }

  function Wrong(loc: string, expected: string, v: Json): string {
    loc + "\n  Input should be " + expected + " [input_value=" + Repr(v) + "]"
  }

  /** A required `str` field; Pydantic does not turn numbers into strings. */
  function StrField(fields: seq<(string, Json)>, at: string, key: string): (r: Result<string>)
    ensures r.Ok? <==> Lookup(fields, key).Some? && Lookup(fields, key).value.JStr?
    ensures r.Ok? ==> Lookup(fields, key) == Some(JStr(r.value))
  {
    match Lookup(fields, key)
    case None => Err(Missing(FieldLoc(at, key)))
    case Some(v) => if v.JStr? then Ok(v.s) else Err(Wrong(FieldLoc(at, key), "a valid string", v))
  }

  function ImpactField(fields: seq<(string, Json)>, at: string, key: string): (r: Result<Impact>)
    ensures r.Ok? <==> Lookup(fields, key).Some? && ParseImpact(Lookup(fields, key).value).Some?
    ensures r.Ok? ==> Lookup(fields, key) == Some(JStr(ImpactText(r.value)))
  {
    match Lookup(fields, key)
    case None => Err(Missing(FieldLoc(at, key)))
    case Some(v) =>
      match ParseImpact(v)
      case Some(i) => Ok(i)
      case None => Err(Wrong(FieldLoc(at, key), "'Improves', 'Worsens' or 'Unchanged'", v))
  }

  function AdoptionField(fields: seq<(string, Json)>, at: string, key: string): (r: Result<Adoption>)
    ensures r.Ok? <==> Lookup(fields, key).Some? && ParseAdoption(Lookup(fields, key).value).Some?
    ensures r.Ok? ==> Lookup(fields, key) == Some(JStr(AdoptionText(r.value)))
  {
    match Lookup(fields, key)
    case None => Err(Missing(FieldLoc(at, key)))
    case Some(v) =>
      match ParseAdoption(v)
      case Some(a) => Ok(a)
      case None => Err(Wrong(FieldLoc(at, key), "'Positive', 'Negative' or 'Unchanged'", v))
  }

  function CategoryField(fields: seq<(string, Json)>, at: string, key: string): (r: Result<Category>)
    ensures r.Ok? <==> Lookup(fields, key).Some? && ParseCategory(Lookup(fields, key).value).Some?
    ensures r.Ok? ==> Lookup(fields, key) == Some(JStr(CategoryText(r.value)))
  {
    match Lookup(fields, key)
    case None => Err(Missing(FieldLoc(at, key)))
    case Some(v) =>
      match ParseCategory(v)
      case Some(c) => Ok(c)
      case None => Err(Wrong(FieldLoc(at, key), "'Passive', 'Proactive' or 'Overstep'", v))
  }

  // ---------------------------------------------------------------------
  // The three record models

  function ValidateStateLogEntry(v: Json, at: string): (r: Result<StateLogEntry>)
  {
    if !v.JObj? then Err(Wrong(at, "a valid dictionary or instance of StateLogEntry", v))
    else
      var f := v.fields;
      match StrField(f, at, "event_description")
      case Err(m) => Err(m)
      case Ok(ed) =>
      match ImpactField(f, at, "clinical_impact")
      case Err(m) => Err(m)
      case Ok(ci) =>
      match ImpactField(f, at, "environmental_impact")
      case Err(m) => Err(m)
      case Ok(ei) =>
      match AdoptionField(f, at, "service_adoption_impact")
      case Err(m) => Err(m)
      case Ok(sa) =>
      match StrField(f, at, "edd_delta")
      case Err(m) => Err(m)
      case Ok(edd) =>
      match StrField(f, at, "ai_assumed_bottleneck")
      case Err(m) => Err(m)
      case Ok(ab) => Ok(StateLogEntry(ed, ci, ei, sa, edd, ab))
  }

  function ValidateTriple(v: Json, at: string): (r: Result<ReasoningTriple>)
  {
    if !v.JObj? then Err(Wrong(at, "a valid dictionary or instance of ReasoningTriple", v))
    else
      var f := v.fields;
      match StrField(f, at, "situation")
      case Err(m) => Err(m)
      case Ok(s) =>
      match StrField(f, at, "action_taken")
      case Err(m) => Err(m)
      case Ok(a) =>
      match StrField(f, at, "taxonomy_category")
      case Err(m) => Err(m)
      case Ok(t) =>
      match StrField(f, at, "tactical_field_intent")
      case Err(m) => Err(m)
      case Ok(i) => Ok(ReasoningTriple(s, a, t, i))
  }

  function ValidateOption(v: Json, at: string): (r: Result<RLScenarioOption>)
  {
    if !v.JObj? then Err(Wrong(at, "a valid dictionary or instance of RLScenarioOption", v))
    else
      var f := v.fields;
      match CategoryField(f, at, "ai_intended_category")
      case Err(m) => Err(m)
      case Ok(c) =>
      match StrField(f, at, "description")
      case Err(m) => Err(m)
      case Ok(d) =>
      match StrField(f, at, "rationale")
      case Err(m) => Err(m)
      case Ok(ra) => Ok(RLScenarioOption(c, d, ra))
  }

  /** Location of element `k` of list field `key`. */
  function ItemLoc(key: string, k: nat): string {
    key + "." + NatToString(k)
  }

  function ValidateEntries(items: seq<Json>): (r: Result<seq<StateLogEntry>>) {
    Collect(seq(|items|, k requires 0 <= k < |items| => ValidateStateLogEntry(items[k], ItemLoc("format_1_state_log", k))))
  }

  function ValidateTriples(items: seq<Json>): (r: Result<seq<ReasoningTriple>>) {
    Collect(seq(|items|, k requires 0 <= k < |items| => ValidateTriple(items[k], ItemLoc("format_2_triples", k))))
  }

  function ValidateOptions(items: seq<Json>): (r: Result<seq<RLScenarioOption>>) {
    Collect(seq(|items|, k requires 0 <= k < |items| => ValidateOption(items[k], ItemLoc("format_3_rl_scenario", k))))
  }

  /** A required `List[...]` field: present and a JSON array. */
  function ListField(fields: seq<(string, Json)>, key: string): (r: Result<seq<Json>>)
    ensures r.Ok? <==> Lookup(fields, key).Some? && Lookup(fields, key).value.JArr?
    ensures r.Ok? ==> Lookup(fields, key) == Some(JArr(r.value))
  {
    match Lookup(fields, key)
    case None => Err(Missing(key))
    case Some(v) => if v.JArr? then Ok(v.items) else Err(Wrong(key, "a valid list", v))
  }

  /** `SyntheticCaseOutput.model_validate(data)`. */
  function ValidateCase(data: Json): (r: Result<SyntheticCaseOutput>)
    ensures r.Ok? ==> data.JObj?
    ensures r.Ok? ==> Lookup(data.fields, "format_1_state_log").Some? && Lookup(data.fields, "format_2_triples").Some?
                      && Lookup(data.fields, "format_3_rl_scenario").Some?
    ensures r.Ok? ==> Lookup(data.fields, "narrative_summary") == Some(JStr(r.value.narrativeSummary))
  {
    if !data.JObj? then Err(Wrong("SyntheticCaseOutput", "a valid dictionary or instance of SyntheticCaseOutput", data))
    else
      var f := data.fields;
      match ListField(f, "format_1_state_log")
      case Err(m) => Err(m)
      case Ok(l1) =>
      match ValidateEntries(l1)
      case Err(m) => Err(m)
      case Ok(sl) =>
      match ListField(f, "format_2_triples")
      case Err(m) => Err(m)
      case Ok(l2) =>
      match ValidateTriples(l2)
      case Err(m) => Err(m)
      case Ok(tr) =>
      match ListField(f, "format_3_rl_scenario")
      case Err(m) => Err(m)
      case Ok(l3) =>
      match ValidateOptions(l3)
      case Err(m) => Err(m)
      case Ok(rl) =>
      match StrField(f, "", "narrative_summary")
      case Err(m) => Err(m)
      case Ok(n) => Ok(SyntheticCaseOutput(sl, tr, rl, n))
  }

  // ---------------------------------------------------------------------
  // model_dump

  function EntryToJson(e: StateLogEntry): Json {
    JObj([
      ("event_description", JStr(e.eventDescription)),
      ("clinical_impact", JStr(ImpactText(e.clinicalImpact))),
      ("environmental_impact", JStr(ImpactText(e.environmentalImpact))),
      ("service_adoption_impact", JStr(AdoptionText(e.serviceAdoptionImpact))),
      ("edd_delta", JStr(e.eddDelta)),
      ("ai_assumed_bottleneck", JStr(e.aiAssumedBottleneck))])
  }

  function TripleToJson(t: ReasoningTriple): Json {
    JObj([
      ("situation", JStr(t.situation)),
      ("action_taken", JStr(t.actionTaken)),
      ("taxonomy_category", JStr(t.taxonomyCategory)),
      ("tactical_field_intent", JStr(t.tacticalFieldIntent))])
  }

  function OptionToJson(o: RLScenarioOption): Json {
    JObj([
      ("ai_intended_category", JStr(CategoryText(o.aiIntendedCategory))),
      ("description", JStr(o.description)),
      ("rationale", JStr(o.rationale))])
  }

  function DumpEntries(entries: seq<StateLogEntry>): seq<Json> {
    seq(|entries|, k requires 0 <= k < |entries| => EntryToJson(entries[k]))
  }

  function DumpTriples(triples: seq<ReasoningTriple>): seq<Json> {
    seq(|triples|, k requires 0 <= k < |triples| => TripleToJson(triples[k]))
  }

  function DumpOptions(options: seq<RLScenarioOption>): seq<Json> {
    seq(|options|, k requires 0 <= k < |options| => OptionToJson(options[k]))
  }

  function ToJson(c: SyntheticCaseOutput): (r: Json)
    ensures r.JObj? && |r.fields| == 4
    ensures r.fields[0].0 == "format_1_state_log" && r.fields[1].0 == "format_2_triples"
            && r.fields[2].0 == "format_3_rl_scenario" && r.fields[3].0 == "narrative_summary"
    ensures r.fields[0].1.JArr? && |r.fields[0].1.items| == |c.stateLog|
    ensures r.fields[1].1.JArr? && |r.fields[1].1.items| == |c.triples|
    ensures r.fields[2].1.JArr? && |r.fields[2].1.items| == |c.rlScenario|
    ensures r.fields[3].1 == JStr(c.narrativeSummary)
  {
    JObj([
      ("format_1_state_log", JArr(DumpEntries(c.stateLog))),
      ("format_2_triples", JArr(DumpTriples(c.triples))),
      ("format_3_rl_scenario", JArr(DumpOptions(c.rlScenario))),
      ("narrative_summary", JStr(c.narrativeSummary))])
  }

  // ---------------------------------------------------------------------
  // Properties

  lemma EntryRoundTrip(e: StateLogEntry, at: string)
    ensures ValidateStateLogEntry(EntryToJson(e), at) == Ok(e)
  {
    var f := EntryToJson(e).fields;
    assert DistinctKeys(f);
    LookupDistinct(f, 0); LookupDistinct(f, 1); LookupDistinct(f, 2);
    LookupDistinct(f, 3); LookupDistinct(f, 4); LookupDistinct(f, 5);
    ImpactTextParses(e.clinicalImpact);
    ImpactTextParses(e.environmentalImpact);
    AdoptionTextParses(e.serviceAdoptionImpact);
  }

  lemma TripleRoundTrip(t: ReasoningTriple, at: string)
    ensures ValidateTriple(TripleToJson(t), at) == Ok(t)
  {
    var f := TripleToJson(t).fields;
    assert DistinctKeys(f);
    LookupDistinct(f, 0); LookupDistinct(f, 1); LookupDistinct(f, 2); LookupDistinct(f, 3);
  }

  lemma OptionRoundTrip(o: RLScenarioOption, at: string)
    ensures ValidateOption(OptionToJson(o), at) == Ok(o)
  {
    var f := OptionToJson(o).fields;
    assert DistinctKeys(f);
    LookupDistinct(f, 0); LookupDistinct(f, 1); LookupDistinct(f, 2);
    CategoryTextParses(o.aiIntendedCategory);
  }

  lemma EntriesRoundTrip(entries: seq<StateLogEntry>)
    ensures ValidateEntries(DumpEntries(entries)) == Ok(entries)
  {
    var items := DumpEntries(entries);
    var rs := seq(|items|, k requires 0 <= k < |items| => ValidateStateLogEntry(items[k], ItemLoc("format_1_state_log", k)));
    forall k | 0 <= k < |items| ensures rs[k] == Ok(entries[k]) {
      EntryRoundTrip(entries[k], ItemLoc("format_1_state_log", k));
    }
    CollectAllOk(entries, rs);
  }

  lemma TriplesRoundTrip(triples: seq<ReasoningTriple>)
    ensures ValidateTriples(DumpTriples(triples)) == Ok(triples)
  {
    var items := DumpTriples(triples);
    var rs := seq(|items|, k requires 0 <= k < |items| => ValidateTriple(items[k], ItemLoc("format_2_triples", k)));
    forall k | 0 <= k < |items| ensures rs[k] == Ok(triples[k]) {
      TripleRoundTrip(triples[k], ItemLoc("format_2_triples", k));
    }
    CollectAllOk(triples, rs);
  }

  lemma OptionsRoundTrip(options: seq<RLScenarioOption>)
    ensures ValidateOptions(DumpOptions(options)) == Ok(options)
  {
    var items := DumpOptions(options);
    var rs := seq(|items|, k requires 0 <= k < |items| => ValidateOption(items[k], ItemLoc("format_3_rl_scenario", k)));
    forall k | 0 <= k < |items| ensures rs[k] == Ok(options[k]) {
      OptionRoundTrip(options[k], ItemLoc("format_3_rl_scenario", k));
    }
    CollectAllOk(options, rs);
  }

  /** What `model_dump` writes validates back to the same case: the saved
      file of a validated case is itself a valid case. */
  lemma ValidateDumpRoundTrip(c: SyntheticCaseOutput)
    ensures ValidateCase(ToJson(c)) == Ok(c)
  {
    var f := ToJson(c).fields;
    assert DistinctKeys(f);
    LookupDistinct(f, 0); LookupDistinct(f, 1); LookupDistinct(f, 2); LookupDistinct(f, 3);
    EntriesRoundTrip(c.stateLog);
    TriplesRoundTrip(c.triples);
    OptionsRoundTrip(c.rlScenario);
  }

  /** No list length is checked: empty formats and any number of RL options,
      three or not, pass, and so does an empty narrative. */
  lemma ListLengthsUnconstrained(opts: seq<RLScenarioOption>)
    ensures ValidateCase(ToJson(SyntheticCaseOutput([], [], opts, ""))) == Ok(SyntheticCaseOutput([], [], opts, ""))
  {
    ValidateDumpRoundTrip(SyntheticCaseOutput([], [], opts, ""));
  }

  /** A document lacking any of the four top-level fields fails. */
  lemma MissingTopLevelFieldFails(fields: seq<(string, Json)>, key: string)
    requires key in {"format_1_state_log", "format_2_triples", "format_3_rl_scenario", "narrative_summary"}
    requires Lookup(fields, key).None?
    ensures ValidateCase(JObj(fields)).Err?
  {
  }

  /** A state-log entry validates only with impacts drawn from the declared
      sets; in particular "Unclear", offered to annotators, is rejected. */
  lemma StateLogEnumsEnforced(v: Json, at: string)
    requires ValidateStateLogEntry(v, at).Ok?
    ensures v.JObj?
    ensures Lookup(v.fields, "clinical_impact").value in {JStr("Improves"), JStr("Worsens"), JStr("Unchanged")}
    ensures Lookup(v.fields, "environmental_impact").value in {JStr("Improves"), JStr("Worsens"), JStr("Unchanged")}
    ensures Lookup(v.fields, "service_adoption_impact").value in {JStr("Positive"), JStr("Negative"), JStr("Unchanged")}
  {
  }

  lemma UnclearRejected(fields: seq<(string, Json)>, at: string)
    requires Lookup(fields, "clinical_impact") == Some(JStr("Unclear")) || Lookup(fields, "environmental_impact") == Some(JStr("Unclear"))
      || Lookup(fields, "service_adoption_impact") == Some(JStr("Unclear"))
    ensures ValidateStateLogEntry(JObj(fields), at).Err?
  {
  }

  /** An RL option validates only with one of the three hidden categories. */
  lemma OptionCategoryEnforced(v: Json, at: string)
    requires ValidateOption(v, at).Ok?
    ensures v.JObj?
    ensures Lookup(v.fields, "ai_intended_category").value in {JStr("Passive"), JStr("Proactive"), JStr("Overstep")}
  {
  }

  /** A validated document fixes the case: the result's lists have the
      lengths of the document's lists, element by element. */
  lemma ValidateCaseShape(data: Json)
    requires ValidateCase(data).Ok?
    ensures data.JObj?
    ensures var c := ValidateCase(data).value;
      && Lookup(data.fields, "narrative_summary") == Some(JStr(c.narrativeSummary))
      && Lookup(data.fields, "format_1_state_log").Some?
      && Lookup(data.fields, "format_1_state_log").value.JArr?
      && |Lookup(data.fields, "format_1_state_log").value.items| == |c.stateLog|
      && Lookup(data.fields, "format_2_triples").Some?
      && Lookup(data.fields, "format_2_triples").value.JArr?
      && |Lookup(data.fields, "format_2_triples").value.items| == |c.triples|
      && Lookup(data.fields, "format_3_rl_scenario").Some?
      && Lookup(data.fields, "format_3_rl_scenario").value.JArr?
      && |Lookup(data.fields, "format_3_rl_scenario").value.items| == |c.rlScenario|
  {
  }
}
