/** Orchestrated generation of one synthetic patient case per run
    (generate_synthetic.py): the configuration read from the environment,
    the few-shot retrieval, the prompt, the model call and the
    parse-then-validate gate in front of the output directory. */
module GenerateSynthetic {
  import opened PyValues
  import opened Schema

  // ---------------------------------------------------------------------
  // Configuration

  const TaxonomiesDir: string := "./data/taxonomies"
  const OutputDir: string := "./data/synthetic_output"
  const FewShotCount: nat := 2
  const DefaultComplexity: int := 4
  const DefaultFriction: string := "Managed Medicare Auth"
  const DefaultPatient: string := "78yo Female, CHF"
  const DefaultBatchSize: int := 1

  datatype Config = Config(complexityGte: int, friction: string, patient: string, batchSize: int)

  /** `int(os.environ.get(key, default))`: the default is taken as it is, a
      set variable must parse as a decimal integer or the script stops with
      ValueError. */
  function IntSetting(env: map<string, string>, key: string, default: int): (r: Result<int>)
    ensures key !in env ==> r == Ok(default)
    ensures key in env ==> (r.Ok? <==> ParseInt(env[key]).Some?)
  {
    if key !in env then Ok(default)
    else match ParseInt(env[key])
      case Some(v) => Ok(v)
      case None => Err("ValueError: invalid literal for int() with base 10: " + QuoteStr(env[key]))
  }

  /** The module-level settings, read in the order the script reads them. */
  function LoadConfig(env: map<string, string>): (r: Result<Config>)
    ensures r.Ok? <==> IntSetting(env, "COMPLEXITY_GTE", DefaultComplexity).Ok?
                       && IntSetting(env, "BATCH_SIZE", DefaultBatchSize).Ok?
  {
    match IntSetting(env, "COMPLEXITY_GTE", DefaultComplexity)
    case Err(m) => Err(m)
    case Ok(gte) =>
      var friction := MapGet(env, "FRICTION_BARRIER", DefaultFriction);
      var patient := MapGet(env, "PATIENT_DESC", DefaultPatient);
      match IntSetting(env, "BATCH_SIZE", DefaultBatchSize)
      case Err(m) => Err(m)
      case Ok(n) => Ok(Config(gte, friction, patient, n))
  }

  /** With nothing set, the run targets the documented defaults. */
  lemma DefaultConfiguration()
    ensures LoadConfig(map[]) == Ok(Config(4, "Managed Medicare Auth", "78yo Female, CHF", 1))
  {
  }

  /** Numbers written in decimal are read back exactly; text settings are
      taken verbatim. */
  lemma ConfigurationFromEnvironment(gte: nat, n: nat, friction: string, patient: string)
    ensures LoadConfig(map["COMPLEXITY_GTE" := NatToString(gte), "BATCH_SIZE" := NatToString(n),
                           "FRICTION_BARRIER" := friction, "PATIENT_DESC" := patient])
         == Ok(Config(gte, friction, patient, n))
  {
    var env := map["COMPLEXITY_GTE" := NatToString(gte), "BATCH_SIZE" := NatToString(n),
                    "FRICTION_BARRIER" := friction, "PATIENT_DESC" := patient];
    assert env["COMPLEXITY_GTE"] == NatToString(gte);
    assert env["BATCH_SIZE"] == NatToString(n);
    ParseIntOfNat(gte);
    ParseIntOfNat(n);
    assert IntSetting(env, "COMPLEXITY_GTE", DefaultComplexity) == Ok(gte);
    assert IntSetting(env, "BATCH_SIZE", DefaultBatchSize) == Ok(n);
  }

  /** A malformed number in either integer setting stops the script. */
  lemma MalformedNumberRejected(env: map<string, string>)
    requires ("COMPLEXITY_GTE" in env && ParseInt(env["COMPLEXITY_GTE"]).None?)
          || ("BATCH_SIZE" in env && ParseInt(env["BATCH_SIZE"]).None?)
    ensures LoadConfig(env).Err?
  {
  }

  // ---------------------------------------------------------------------
  // Parse-then-validate gate

  /** The fence clean-up applied to a reply: strip, drop a leading fence
      (with or without its `json` tag) and a trailing fence, strip again. */
  function StripFences(raw: string): (r: string)
    ensures Trimmed(r)
  {
    var inner := RemoveSuffix(RemovePrefix(RemovePrefix(Strip(raw), "```json"), "```"), "```");
    StripTrimmed(inner);
    Strip(inner)
  }

  /** A reply without fences passes through untouched. */
  lemma FenceFreeUnchanged(s: string)
    requires Trimmed(s) && !StartsWith(s, "```") && !EndsWith(s, "```")
    ensures StripFences(s) == s
  {
    StripOfTrimmed(s);
    assert |s| >= 7 ==> s[..3] == s[..7][..3];
    assert "```json"[..3] == "```";
    assert !StartsWith(s, "```json");
    assert RemovePrefix(s, "```json") == s;
    assert RemovePrefix(s, "```") == s;
    assert RemoveSuffix(s, "```") == s;
  }

  /** A document wrapped in a ```json fence, with any whitespace around the
      fences, is recovered exactly. */
  lemma FencedDocumentRecovered(w1: string, w2: string, body: string, w3: string, w4: string)
    requires AllSpace(w1) && AllSpace(w2) && AllSpace(w3) && AllSpace(w4)
    requires body != [] && Trimmed(body) && body[0] != '`'
    ensures StripFences(w1 + "```json" + w2 + body + w3 + "```" + w4) == body
  {
    var inner := w2 + body + w3;
    var afterTag := inner + "```";
    var fenced := "```json" + afterTag;
    assert w1 + "```json" + w2 + body + w3 + "```" + w4 == w1 + fenced + w4;
    StripAround(w1, fenced, w4);
    RemovePrefixOfConcat("```json", afterTag);
    assert !StartsWith(afterTag, "```") by {
      if w2 != [] {
        assert afterTag[0] == w2[0];
        assert IsSpace(w2[0]);
      } else {
        assert afterTag[0] == body[0];
      }
    }
    RemoveSuffixOfConcat(inner, "```");
    StripAround(w2, body, w3);
  }

  /** What `validate_and_save` decides about a reply before it touches the
      disk: the decoded, validated case, or why it was refused. */
  function ParseAndValidate(raw: string, loads: string -> Decoded): (r: Result<SyntheticCaseOutput>)
    ensures r.Ok? ==> loads(StripFences(raw)).Parsed?
    ensures loads(StripFences(raw)).DecodeError? ==> r.Err? && StartsWith(r.msg, "JSON parse failed: ")
    ensures loads(StripFences(raw)).Parsed? && r.Err? ==> StartsWith(r.msg, "Pydantic validation failed: ")
  {
    match loads(StripFences(raw))
    case DecodeError(what, line, col, pos) => Err("JSON parse failed: " + DecodeErrorText(what, line, col, pos))
    case Parsed(data) =>
      match ValidateCase(data)
      case Ok(c) => Ok(c)
      case Err(m) => Err("Pydantic validation failed: " + m)
  }

  /** A reply whose text decodes to the dump of a case is accepted as that
      case. */
  lemma CleanReplyAccepted(text: string, c: SyntheticCaseOutput, loads: string -> Decoded)
    requires Trimmed(text) && !StartsWith(text, "```") && !EndsWith(text, "```")
    requires loads(text) == Parsed(ToJson(c))
    ensures ParseAndValidate(text, loads) == Ok(c)
  {
    FenceFreeUnchanged(text);
    ValidateDumpRoundTrip(c);
  }

  /** The same holds for a fenced reply, judged on the text inside the fences. */
  lemma FencedReplyAccepted(w1: string, w2: string, body: string, w3: string, w4: string,
                            c: SyntheticCaseOutput, loads: string -> Decoded)
    requires AllSpace(w1) && AllSpace(w2) && AllSpace(w3) && AllSpace(w4)
    requires body != [] && Trimmed(body) && body[0] != '`'
    requires loads(body) == Parsed(ToJson(c))
    ensures ParseAndValidate(w1 + "```json" + w2 + body + w3 + "```" + w4, loads) == Ok(c)
  {
    FencedDocumentRecovered(w1, w2, body, w3, w4);
    ValidateDumpRoundTrip(c);
  }

  /** `os.path.join(OUTPUT_DIR, f"synthetic_case_{timestamp}_{run_index}.json")`. */
  function OutputPath(timestamp: string, runIndex: nat): string {
    OutputDir + "/synthetic_case_" + timestamp + "_" + NatToString(runIndex) + ".json"
  }

  /** Timestamps of one format cannot make two runs of a batch share a file. */
  lemma OutputPathInjective(ts1: string, ts2: string, i: nat, j: nat)
    requires |ts1| == |ts2| && (ts1 != ts2 || i != j)
    ensures OutputPath(ts1, i) != OutputPath(ts2, j)
  {
    var pre := OutputDir + "/synthetic_case_";
    var p1 := OutputPath(ts1, i);
    var p2 := OutputPath(ts2, j);
    if p1 == p2 {
      assert p1 == (pre + ts1) + ("_" + NatToString(i) + ".json");
      assert p2 == (pre + ts2) + ("_" + NatToString(j) + ".json");
      assert p1[..|pre + ts1|] == pre + ts1;
      assert p2[..|pre + ts2|] == pre + ts2;
      assert ts1 == (pre + ts1)[|pre|..] && ts2 == (pre + ts2)[|pre|..];
      var t1 := "_" + NatToString(i) + ".json";
      var t2 := "_" + NatToString(j) + ".json";
      assert p1[|pre + ts1|..] == t1 && p2[|pre + ts2|..] == t2;
      assert NatToString(i) == t1[1..|t1| - 5] && NatToString(j) == t2[1..|t2| - 5];
      if i != j {
        NatToStringInjective(i, j);
      }
    }
  }

  // ---------------------------------------------------------------------
  // The file system and the model endpoint as the script sees them

  /** Everything a run leaves behind: the JSON documents written under
      their paths, every request sent to the model in order, and every
      pause taken. */
  class Workspace {
    var files: map<string, Json>
    var requests: seq<string>
    var sleeps: seq<nat>

    constructor()
      ensures files == map[] && requests == [] && sleeps == []
    {
      files := map[];
      requests := [];
      sleeps := [];
    }
  }

  /** The files after a reply has been judged: its case written under
      `path` when it was accepted, nothing otherwise. */
  function Saved(files: map<string, Json>, verdict: Result<SyntheticCaseOutput>, path: string): map<string, Json> {
    match verdict
    case Ok(c) => files[path := ToJson(c)]
    case Err(_) => files
  }

  /** `validate_and_save`: the case is written under its run's path exactly
      when the reply passes the gate, and nothing else changes. */
  method ValidateAndSave(ws: Workspace, raw: string, runIndex: nat, timestamp: string,
                         loads: string -> Decoded) returns (r: Option<SyntheticCaseOutput>)
    modifies ws
    ensures r.Some? <==> ParseAndValidate(raw, loads).Ok?
    ensures r.Some? ==> ParseAndValidate(raw, loads) == Ok(r.value)
    ensures ws.files == Saved(old(ws.files), ParseAndValidate(raw, loads), OutputPath(timestamp, runIndex))
    ensures ws.requests == old(ws.requests) && ws.sleeps == old(ws.sleeps)
  {
    var verdict := ParseAndValidate(raw, loads);
    if verdict.Err? {
      return None;
    }
    ws.files := ws.files[OutputPath(timestamp, runIndex) := ToJson(verdict.value)];
    r := Some(verdict.value);
  }

  // ---------------------------------------------------------------------
  // Few-shot retrieval

  /** What one returned metadata record contributes: nothing when its
      `raw_json` is missing, empty or undecodable, its document otherwise;
      a non-string payload makes `json.loads` raise TypeError. */
  datatype Payload = Skip | Keep(doc: Json) | Raise(error: string)

  function PayloadOf(metadata: map<string, Json>, loads: string -> Decoded): Payload {
    var raw := MapGet(metadata, "raw_json", JStr(""));
    if !Truthy(raw) then Skip
    else if !raw.JStr? then Raise("TypeError: the JSON object must be str, bytes or bytearray")
    else match loads(raw.s)
      case Parsed(doc) => Keep(doc)
      case DecodeError(_, _, _, _) => Skip
  }

  /** The examples kept from the query's metadata records, in order. */
  function FewShotExamples(metadatas: seq<map<string, Json>>, loads: string -> Decoded): (r: Result<seq<Json>>)
    decreases |metadatas|
  {
    if metadatas == [] then Ok([])
    else match PayloadOf(metadatas[0], loads)
      case Raise(e) => Err(e)
      case Skip => FewShotExamples(metadatas[1..], loads)
      case Keep(doc) =>
        match FewShotExamples(metadatas[1..], loads)
        case Err(e) => Err(e)
        case Ok(rest) => Ok([doc] + rest)
  }

  function Prepend(done: seq<Json>, rest: Result<seq<Json>>): Result<seq<Json>> {
    match rest
    case Ok(vs) => Ok(done + vs)
    case Err(e) => Err(e)
  }

  lemma PrependNothing(rest: Result<seq<Json>>)
    ensures Prepend([], rest) == rest
  {
    if rest.Ok? {
      assert [] + rest.value == rest.value;
    }
  }

  /** Keeping one more example moves it from the pending results to the
      collected ones. */
  lemma PrependOne(done: seq<Json>, doc: Json, rest: Result<seq<Json>>)
    ensures Prepend(done, match rest case Err(e) => Err(e) case Ok(vs) => Ok([doc] + vs))
         == Prepend(done + [doc], rest)
  {
    if rest.Ok? {
      assert done + ([doc] + rest.value) == done + [doc] + rest.value;
    }
  }

  function QueryText(friction: string): string {
    "Bureaucratic delay with " + friction + " and clinical barriers"
  }

  /** `retrieve_few_shot_examples`: `query` stands for the vector store,
      answering a query text, a complexity floor and a count with the
      metadata records of the hits. */
  method RetrieveFewShotExamples(query: (string, int, nat) -> seq<map<string, Json>>, complexityGte: int,
                                 queryText: string, n: nat, loads: string -> Decoded)
    returns (r: Result<seq<Json>>)
    ensures r == FewShotExamples(query(queryText, complexityGte, n), loads)
  {
    var metadatas := query(queryText, complexityGte, n);
    var examples: seq<Json> := [];
    var i := 0;
    assert metadatas[0..] == metadatas;
    PrependNothing(FewShotExamples(metadatas, loads));
    while i < |metadatas|
      invariant 0 <= i <= |metadatas|
      invariant FewShotExamples(metadatas, loads) == Prepend(examples, FewShotExamples(metadatas[i..], loads))
    {
      assert metadatas[i..][0] == metadatas[i];
      assert metadatas[i..][1..] == metadatas[i + 1..];
      var payload := PayloadOf(metadatas[i], loads);
      if payload.Raise? {
        assert FewShotExamples(metadatas[i..], loads) == Err(payload.error);
        return Err(payload.error);
      } else if payload.Keep? {
        PrependOne(examples, payload.doc, FewShotExamples(metadatas[i + 1..], loads));
        examples := examples + [payload.doc];
      }
      i := i + 1;
    }
    assert metadatas[i..] == [];
    assert examples + [] == examples;
    r := Ok(examples);
  }

  /** Never more examples than records returned. */
  lemma {:induction false} FewShotAtMostReturned(metadatas: seq<map<string, Json>>, loads: string -> Decoded)
    ensures FewShotExamples(metadatas, loads).Ok? ==> |FewShotExamples(metadatas, loads).value| <= |metadatas|
    decreases |metadatas|
  {
    if metadatas != [] {
      FewShotAtMostReturned(metadatas[1..], loads);
    }
  }

  /** A record with a non-string payload makes retrieval fail. */
  lemma {:induction false} FewShotFailsAt(metadatas: seq<map<string, Json>>, loads: string -> Decoded, k: nat)
    requires k < |metadatas| && PayloadOf(metadatas[k], loads).Raise?
    ensures FewShotExamples(metadatas, loads).Err?
    decreases k
  {
    if k > 0 && !PayloadOf(metadatas[0], loads).Raise? {
      assert metadatas[1..][k - 1] == metadatas[k];
      FewShotFailsAt(metadatas[1..], loads, k - 1);
    }
  }

  /** A failed retrieval names a record with a non-string payload. */
  lemma {:induction false} FewShotFailureWitness(metadatas: seq<map<string, Json>>, loads: string -> Decoded)
    returns (k: nat)
    requires FewShotExamples(metadatas, loads).Err?
    ensures k < |metadatas| && PayloadOf(metadatas[k], loads).Raise?
    decreases |metadatas|
  {
    if PayloadOf(metadatas[0], loads).Raise? {
      k := 0;
    } else {
      var j := FewShotFailureWitness(metadatas[1..], loads);
      assert metadatas[1..][j] == metadatas[j + 1];
      k := j + 1;
    }
  }

  /** Retrieval fails exactly when some record carries a non-string payload. */
  lemma FewShotFailsIff(metadatas: seq<map<string, Json>>, loads: string -> Decoded)
    ensures FewShotExamples(metadatas, loads).Err?
        <==> exists k :: 0 <= k < |metadatas| && PayloadOf(metadatas[k], loads).Raise?
  {
    if FewShotExamples(metadatas, loads).Err? {
      var k := FewShotFailureWitness(metadatas, loads);
    }
    if exists k :: 0 <= k < |metadatas| && PayloadOf(metadatas[k], loads).Raise? {
      var k :| 0 <= k < |metadatas| && PayloadOf(metadatas[k], loads).Raise?;
      FewShotFailsAt(metadatas, loads, k);
    }
  }

  /** When every record decodes, every one becomes an example, in order. */
  lemma {:induction false} FewShotKeepsDecodable(metadatas: seq<map<string, Json>>, loads: string -> Decoded)
    requires forall k :: 0 <= k < |metadatas| ==> PayloadOf(metadatas[k], loads).Keep?
    ensures FewShotExamples(metadatas, loads).Ok?
    ensures |FewShotExamples(metadatas, loads).value| == |metadatas|
    ensures forall k :: 0 <= k < |metadatas| ==>
      FewShotExamples(metadatas, loads).value[k] == PayloadOf(metadatas[k], loads).doc
    decreases |metadatas|
  {
    if metadatas != [] {
      var rest := metadatas[1..];
      assert forall k :: 0 <= k < |rest| ==> rest[k] == metadatas[k + 1];
      FewShotKeepsDecodable(rest, loads);
      var doc := PayloadOf(metadatas[0], loads).doc;
      var tail := FewShotExamples(rest, loads).value;
      assert FewShotExamples(metadatas, loads) == Ok([doc] + tail);
      forall k | 0 <= k < |metadatas|
        ensures ([doc] + tail)[k] == PayloadOf(metadatas[k], loads).doc
      {
        if k > 0 {
          assert ([doc] + tail)[k] == tail[k - 1];
        }
      }
    }
  }

  // ---------------------------------------------------------------------
  // Prompt

  /** The three static taxonomies, as decoded from their files. */
  datatype Taxonomies = Taxonomies(friction: Json, action: Json, outcome: Json)

  const TaxonomiesBanner: string := "=== STATIC TAXONOMIES ==="
  const FrictionHeading: string := @"

--- Friction Taxonomy (defines allowable time delays) ---
"
  const ActionHeading: string := @"

--- Action Taxonomy (defines Rank 1 success intents) ---
"
  const OutcomeHeading: string := @"

--- Outcome Taxonomy (defines state transition triggers) ---
"
  const ExamplesBanner: string := @"

=== FEW-SHOT REFERENCE CASES ===

"
  const CountLabel: string := "Here are "
  const ExamplesIntro: string := @" real-world seed cases. Mimic their level of
clinical detail, operational chaos, and formatting exactly:

"
  const TaskIntro: string := @"

=== TASK ===

Generate 1 NEW synthetic patient case with the following target variables:

"
  const PatientLabel: string := "- Patient: "
  const FrictionLabel: string := @"
- Main Friction: "
  const SchemaHeading: string := @"

You MUST strictly output valid JSON conforming to this schema and NO other text:

"
  /** The rules that follow the schema, up to the final one. */
  const Rules: string := @"

Rules:
1. All edd_delta values must reference a delay from the Friction Taxonomy.
2. The `ai_assumed_bottleneck` must be a specific, testable claim about a HOME HEALTH TRANSITION barrier (e.g., ""The HHA could not schedule a weekend admission because their intake coordinator only works Mon-Fri"").

NEGATIVE CONSTRAINTS (What a PN NEVER does):
- The PN NEVER touches F2F forms, clinical documentation, or the EMR.
- The PN NEVER calls insurance companies for authorization.
- The PN NEVER calls or leads facility team meetings.
- The PN NEVER interrupts doctors during rounds or gathers charts from the nurse's station.
- The PN NEVER proves cost analysis of home care vs LTC.
- The PN NEVER tells families to refuse discharge or go Against Medical Advice (AMA).

POSITIVE CONSTRAINTS (What a PN ACTUALLY does):
- The PN focuses entirely on Home Health Agency (HHA) coordination and transition logistics.
- Valid PN friction includes: HHA weekend admission scheduling limits, delays in Durable Medical Equipment (DME) delivery to the home, family caregiver training gaps, or discrepancies in the medication list at handoff.

Rules for Format 2 (Triples):
3. The `situation` must involve a specific stakeholder bottleneck WITHIN THE PN's SCOPE (e.g., HHA not returning calls, DME vendor backordered, family caregiver not trained on wound care, medication list mismatch between facility and home).
4. The `action_taken` must be a specific field maneuver that a PN would realistically take, not a Social Worker action.
5. The `tactical_field_intent` MUST contain a political or operational trade-off that a 20-year PN veteran could debate. Use PN-specific motives (e.g., 'Lock in the HHA admission slot before the weekend so the discharge does not slip to Monday').

Rules for Format 3 (RL Scenarios):
6. The format_3_rl_scenario MUST contain exactly THREE options for a single difficult dilemma.
7. You must generate one ""Passive"" option, one ""Proactive"" option, and one ""Overstep"" option.
8. CRITICAL: The `description` for all three options must sound highly professional, reasonable, and tempting.
   - ""Passive"" means the PN waits for the SW/facility to handle everything and fails to follow up on HHA setup or home equipment.
   - ""Proactive"" means the PN takes a great field action WITHIN THEIR SCOPE (e.g., confirming the HHA admission date, verifying supplies are waiting at home, educating the family on what to expect on Day 1, checking weekend HHA availability).
   - ""Overstep"" MUST feature the PN accidentally doing the Social Worker's job (e.g., handling discharge documentation, confronting facility staff, calling the patient's insurance, or drafting clinical notes). It must still sound like good patient advocacy to a rookie.
9. narrative_summary must be 3-5 sentences capturing the home health transition arc, not the facility discharge process.
"
  const FinalRule: string := "10. Output ONLY the JSON object. Do not include markdown fences, explanation, or commentary."

  /** The instruction placed before every prompt of this script. */
  const SystemPrompt: string := @"You are an AI Healthcare Architect generating highly authentic synthetic cases for 20-year non-clinical Patient Navigator veterans. You must strictly adhere to the Static Taxonomies.

CRITICAL ROLE DEFINITION: The Patient Navigator is NOT a discharge planner, NOT a social worker, and NOT a clinician. The PN enters the picture specifically to ensure a smooth transition to home health care AFTER the facility handles the clinical discharge. The PN is a collaborative team member who works WITH the facility, never against them.

BANNED TROPES: You MUST NOT use the following repetitive phrases or concepts: 'F2F / Face-to-Face signatures', 'burned-out Social Worker', '100-day financial cliff', 'Private pay to LTC', or 'Black Hole'."

  /** The sections of the prompt template with their interpolations in
      place. `dumps` stands for `json.dumps(..., indent=2)` and `schemaText`
      for the dumped JSON schema of the output model. */
  function FrictionSection(tax: Taxonomies, dumps: Json -> string): string {
    TaxonomiesBanner + FrictionHeading + dumps(tax.friction)
  }

  function ActionSection(tax: Taxonomies, dumps: Json -> string): string {
    ActionHeading + dumps(tax.action)
  }

  function OutcomeSection(tax: Taxonomies, dumps: Json -> string): string {
    OutcomeHeading + dumps(tax.outcome)
  }

  function ExamplesCount(examples: seq<Json>, dumps: Json -> string): string {
    CountLabel + NatToString(|examples|) + ExamplesIntro + dumps(JArr(examples))
  }

  function ExamplesSection(examples: seq<Json>, dumps: Json -> string): string {
    ExamplesBanner + ExamplesCount(examples, dumps)
  }

  function Targets(patient: string, friction: string): string {
    PatientLabel + patient + FrictionLabel + friction
  }

  function TaskSection(patient: string, friction: string): string {
    TaskIntro + Targets(patient, friction)
  }

  function SchemaSection(schemaText: string): string {
    SchemaHeading + schemaText + Rules + FinalRule
  }

  /** The template without the newline that opens it and the one that
      closes it: its sections in order. */
  function PromptCore(tax: Taxonomies, examples: seq<Json>, patient: string, friction: string,
                      dumps: Json -> string, schemaText: string): string
  {
    JoinWith("", [FrictionSection(tax, dumps), ActionSection(tax, dumps), OutcomeSection(tax, dumps),
                  ExamplesSection(examples, dumps), TaskSection(patient, friction), SchemaSection(schemaText)])
  }

  /** `build_prompt`: the template, stripped. */
  function BuildPrompt(tax: Taxonomies, examples: seq<Json>, patient: string, friction: string,
                       dumps: Json -> string, schemaText: string): (r: string)
    ensures Trimmed(r)
  {
    var text := "\n" + PromptCore(tax, examples, patient, friction, dumps, schemaText) + "\n";
    StripTrimmed(text);
    Strip(text)
  }

  /** The template's text opens with the taxonomy banner and closes with
      the final rule, so it has no whitespace at either end. */
  lemma PromptCoreTrimmed(tax: Taxonomies, examples: seq<Json>, patient: string, friction: string,
                          dumps: Json -> string, schemaText: string)
    ensures Trimmed(PromptCore(tax, examples, patient, friction, dumps, schemaText))
    ensures StartsWith(PromptCore(tax, examples, patient, friction, dumps, schemaText), FrictionSection(tax, dumps))
    ensures EndsWith(PromptCore(tax, examples, patient, friction, dumps, schemaText), SchemaSection(schemaText))
  {
    var parts := [FrictionSection(tax, dumps), ActionSection(tax, dumps), OutcomeSection(tax, dumps),
                  ExamplesSection(examples, dumps), TaskSection(patient, friction), SchemaSection(schemaText)];
    assert parts[0][0] == '=';
    assert parts[5][|parts[5]| - 1] == '.';
    JoinTrimmed("", parts);
    JoinStartsWith("", parts);
    JoinEndsWith("", parts);
  }

  /** Stripping removes only the template's own outer newlines: the prompt
      is the template's text, opening with the taxonomy section and closing
      with the schema and the rules, whatever is interpolated. */
  lemma PromptIsTemplate(tax: Taxonomies, examples: seq<Json>, patient: string, friction: string,
                         dumps: Json -> string, schemaText: string)
    ensures BuildPrompt(tax, examples, patient, friction, dumps, schemaText)
         == PromptCore(tax, examples, patient, friction, dumps, schemaText)
    ensures StartsWith(BuildPrompt(tax, examples, patient, friction, dumps, schemaText), FrictionSection(tax, dumps))
    ensures EndsWith(BuildPrompt(tax, examples, patient, friction, dumps, schemaText), SchemaSection(schemaText))
  {
    PromptCoreTrimmed(tax, examples, patient, friction, dumps, schemaText);
    StripNewlines(PromptCore(tax, examples, patient, friction, dumps, schemaText));
  }

  lemma PromptCoreHasSections(tax: Taxonomies, examples: seq<Json>, patient: string, friction: string,
                              dumps: Json -> string, schemaText: string)
    ensures var p := PromptCore(tax, examples, patient, friction, dumps, schemaText);
      && Contains(p, ActionSection(tax, dumps))
      && Contains(p, OutcomeSection(tax, dumps))
      && Contains(p, ExamplesSection(examples, dumps))
      && Contains(p, TaskSection(patient, friction))
  {
    var parts := [FrictionSection(tax, dumps), ActionSection(tax, dumps), OutcomeSection(tax, dumps),
                  ExamplesSection(examples, dumps), TaskSection(patient, friction), SchemaSection(schemaText)];
    JoinContains("", parts, 1);
    JoinContains("", parts, 2);
    JoinContains("", parts, 3);
    JoinContains("", parts, 4);
  }

  /** Every middle section appears whole in the prompt. */
  lemma PromptHasSections(tax: Taxonomies, examples: seq<Json>, patient: string, friction: string,
                          dumps: Json -> string, schemaText: string)
    ensures var p := BuildPrompt(tax, examples, patient, friction, dumps, schemaText);
      && Contains(p, ActionSection(tax, dumps))
      && Contains(p, OutcomeSection(tax, dumps))
      && Contains(p, ExamplesSection(examples, dumps))
      && Contains(p, TaskSection(patient, friction))
  {
    PromptIsTemplate(tax, examples, patient, friction, dumps, schemaText);
    PromptCoreHasSections(tax, examples, patient, friction, dumps, schemaText);
  }

  /** The prompt names the target patient and friction on consecutive lines. */
  lemma PromptNamesTargets(tax: Taxonomies, examples: seq<Json>, patient: string, friction: string,
                           dumps: Json -> string, schemaText: string)
    ensures Contains(BuildPrompt(tax, examples, patient, friction, dumps, schemaText),
                     "- Patient: " + patient + "\n- Main Friction: " + friction)
  {
    PromptHasSections(tax, examples, patient, friction, dumps, schemaText);
    ContainsTail(BuildPrompt(tax, examples, patient, friction, dumps, schemaText), TaskIntro, Targets(patient, friction));
  }

  /** The prompt states how many examples follow, right before them. */
  lemma PromptCountsExamples(tax: Taxonomies, examples: seq<Json>, patient: string, friction: string,
                             dumps: Json -> string, schemaText: string)
    ensures Contains(BuildPrompt(tax, examples, patient, friction, dumps, schemaText),
                     "Here are " + NatToString(|examples|) + ExamplesIntro + dumps(JArr(examples)))
  {
    PromptHasSections(tax, examples, patient, friction, dumps, schemaText);
    ContainsTail(BuildPrompt(tax, examples, patient, friction, dumps, schemaText), ExamplesBanner, ExamplesCount(examples, dumps));
  }

  // ---------------------------------------------------------------------
  // The run

  /** What the model endpoint makes of a request: the reply text, or the
      exception raised by the call or by reading `response.text`. */
  datatype Reply = Text(text: string) | Raised(error: string)

  /** The services a run depends on. `taxonomy` opens and decodes a file of
      the taxonomies directory; `query` is the vector store; `reply(k)` is
      the endpoint's answer to the k-th request recorded in the workspace;
      `clock(i)` is the timestamp formatted when generation `i` saves. */
  datatype Services = Services(
    loads: string -> Decoded,
    dumps: Json -> string,
    schemaText: string,
    taxonomy: string -> Result<Json>,
    query: (string, int, nat) -> seq<map<string, Json>>,
    reply: nat -> Reply,
    clock: nat -> string)

  datatype Outcome = Finished | Aborted(error: string)

  datatype RunState = RunState(files: map<string, Json>, requests: seq<string>, outcome: Outcome)

  const MissingKeyError: string := "EnvironmentError: GEMINI_API_KEY environment variable is not set."

  /** The key check: unset and empty both stop the run. */
  predicate HasKey(env: map<string, string>) {
    "GEMINI_API_KEY" in env && env["GEMINI_API_KEY"] != ""
  }

  /** The three taxonomy files, read in the script's order. */
  function LoadTaxonomies(svc: Services): Result<Taxonomies> {
    match svc.taxonomy("friction_taxonomy.json")
    case Err(e) => Err(e)
    case Ok(f) =>
      match svc.taxonomy("action_taxonomy.json")
      case Err(e) => Err(e)
      case Ok(a) =>
        match svc.taxonomy("outcome_taxonomy.json")
        case Err(e) => Err(e)
        case Ok(o) => Ok(Taxonomies(f, a, o))
  }

  function Request(cfg: Config, tax: Taxonomies, examples: seq<Json>, svc: Services): string {
    SystemPrompt + "\n\n" + BuildPrompt(tax, examples, cfg.patient, cfg.friction, svc.dumps, svc.schemaText)
  }

  function Examples(cfg: Config, svc: Services): Result<seq<Json>> {
    FewShotExamples(svc.query(QueryText(cfg.friction), cfg.complexityGte, FewShotCount), svc.loads)
  }

  /** What every generation of a run sends: the same request, since the
      query, the taxonomies and the targets do not change between
      generations, or the retrieval error that stops the first one. */
  function Pending(cfg: Config, tax: Taxonomies, svc: Services): Result<string> {
    match Examples(cfg, svc)
    case Ok(examples) => Ok(Request(cfg, tax, examples, svc))
    case Err(e) => Err(e)
  }

  /** The gate as a function of the reply text. */
  function Gate(loads: string -> Decoded): string -> Result<SyntheticCaseOutput> {
    raw => ParseAndValidate(raw, loads)
  }

  /** The path generation `j` would save to. */
  function GenerationPath(clock: nat -> string, j: nat): string {
    OutputPath(clock(j), j + 1)
  }

  function GenerationPaths(clock: nat -> string): nat -> string {
    (j: nat) => GenerationPath(clock, j)
  }

  /** The generations `i`, ..., `n - 1` of a run that has reached `i` with
      these files written and these requests sent: `reply` answers the k-th
      request, `gate` judges each reply text and `path(j)` is where
      generation `j` saves. */
  function Generations(reply: nat -> Reply, gate: string -> Result<SyntheticCaseOutput>, path: nat -> string,
                       pending: Result<string>, i: nat, n: nat,
                       files: map<string, Json>, requests: seq<string>): (r: RunState)
    ensures requests <= r.requests
    ensures |r.requests| <= |requests| + (if i < n then n - i else 0)
    ensures files.Keys <= r.files.Keys
    decreases n - i
  {
    if i >= n then RunState(files, requests, Finished)
    else
      match pending
      case Err(e) => RunState(files, requests, Aborted(e))
      case Ok(request) =>
        match reply(|requests|)
        case Raised(e) => RunState(files, requests + [request], Aborted(e))
        case Text(t) =>
          Generations(reply, gate, path, pending, i + 1, n, Saved(files, gate(t), path(i)), requests + [request])
  }

  /** `range(BATCH_SIZE)` is empty for a negative size. */
  function RunCount(batchSize: int): nat {
    if batchSize < 0 then 0 else batchSize
  }

  /** A whole run of the script, from the environment to the last save. */
  function Run(env: map<string, string>, svc: Services, files: map<string, Json>, requests: seq<string>): (r: RunState)
    ensures requests <= r.requests
    ensures files.Keys <= r.files.Keys
  {
    match Setup(env, svc)
    case Err(e) => RunState(files, requests, Aborted(e))
    case Ok((cfg, tax)) =>
      Generations(svc.reply, Gate(svc.loads), GenerationPaths(svc.clock), Pending(cfg, tax, svc),
                  0, RunCount(cfg.batchSize), files, requests)
  }

  /** Everything before the loop: the settings read on import, the key
      check and the three taxonomies, each stopping the run on failure. */
  function Setup(env: map<string, string>, svc: Services): (r: Result<(Config, Taxonomies)>)
    ensures r.Ok? ==> HasKey(env) && LoadConfig(env) == Ok(r.value.0)
    ensures !HasKey(env) ==> r.Err?
  {
    match LoadConfig(env)
    case Err(e) => Err(e)
    case Ok(cfg) =>
      if !HasKey(env) then Err(MissingKeyError)
      else match LoadTaxonomies(svc)
        case Err(e) => Err(e)
        case Ok(tax) => Ok((cfg, tax))
  }

  /** One pass of `main`'s loop once the request is built: the call to the
      endpoint, recorded in the workspace, and the gate on its reply. An
      exception from the call is returned and ends the run. */
  method Generate(ws: Workspace, svc: Services, request: string, i: nat) returns (raised: Option<string>)
    modifies ws
    ensures RunState(ws.files, ws.requests, if raised.Some? then Aborted(raised.value) else Finished)
         == Generations(svc.reply, Gate(svc.loads), GenerationPaths(svc.clock), Ok(request), i, i + 1,
                        old(ws.files), old(ws.requests))
    ensures ws.sleeps == old(ws.sleeps)
  {
    var reply := svc.reply(|ws.requests|);
    ws.requests := ws.requests + [request];
    if reply.Raised? {
      return Some(reply.error);
    }
    var _ := ValidateAndSave(ws, reply.text, i + 1, svc.clock(i), svc.loads);
    assert Gate(svc.loads)(reply.text) == ParseAndValidate(reply.text, svc.loads);
    assert GenerationPaths(svc.clock)(i) == OutputPath(svc.clock(i), i + 1);
    raised := None;
  }

  /** A run that has reached generation `i` goes on from where that one
      generation leaves it, unless it stopped there. */
  lemma GenerationsStep(reply: nat -> Reply, gate: string -> Result<SyntheticCaseOutput>, path: nat -> string,
                        request: string, i: nat, n: nat, files: map<string, Json>, requests: seq<string>)
    requires i < n
    ensures var one := Generations(reply, gate, path, Ok(request), i, i + 1, files, requests);
      Generations(reply, gate, path, Ok(request), i, n, files, requests)
        == if one.outcome.Finished? then Generations(reply, gate, path, Ok(request), i + 1, n, one.files, one.requests)
           else one
  {
  }

  /** `main`, with the settings the module reads on import. */
  method RunGeneration(ws: Workspace, env: map<string, string>, svc: Services) returns (outcome: Outcome)
    modifies ws
    ensures RunState(ws.files, ws.requests, outcome) == Run(env, svc, old(ws.files), old(ws.requests))
    ensures ws.sleeps == old(ws.sleeps)
  {
    var setup := Setup(env, svc);
    if setup.Err? {
      return Aborted(setup.msg);
    }
    var (cfg, tax) := setup.value;
    outcome := GenerateBatch(ws, svc, cfg, tax);
  }

  /** `main`'s loop over `range(BATCH_SIZE)`. */
  method GenerateBatch(ws: Workspace, svc: Services, cfg: Config, tax: Taxonomies) returns (outcome: Outcome)
    modifies ws
    ensures RunState(ws.files, ws.requests, outcome)
         == Generations(svc.reply, Gate(svc.loads), GenerationPaths(svc.clock), Pending(cfg, tax, svc),
                        0, RunCount(cfg.batchSize), old(ws.files), old(ws.requests))
    ensures ws.sleeps == old(ws.sleeps)
  {
    var n := RunCount(cfg.batchSize);
    var i := 0;
    while i < n
      invariant 0 <= i <= n
      invariant Generations(svc.reply, Gate(svc.loads), GenerationPaths(svc.clock), Pending(cfg, tax, svc),
                            i, n, ws.files, ws.requests)
             == Generations(svc.reply, Gate(svc.loads), GenerationPaths(svc.clock), Pending(cfg, tax, svc),
                            0, n, old(ws.files), old(ws.requests))
      invariant ws.sleeps == old(ws.sleeps)
    {
      var examples := RetrieveFewShotExamples(svc.query, cfg.complexityGte, QueryText(cfg.friction), FewShotCount, svc.loads);
      if examples.Err? {
        return Aborted(examples.msg);
      }
      var request := SystemPrompt + "\n\n" + BuildPrompt(tax, examples.value, cfg.patient, cfg.friction, svc.dumps, svc.schemaText);
      assert Pending(cfg, tax, svc) == Ok(request);
      GenerationsStep(svc.reply, Gate(svc.loads), GenerationPaths(svc.clock), request, i, n, ws.files, ws.requests);
      var raised := Generate(ws, svc, request, i);
      if raised.Some? {
        return Aborted(raised.value);
      }
      i := i + 1;
    }
    outcome := Finished;
  }

  /** Without the key nothing is read, sent or written. */
  lemma NoKeyNoRequest(env: map<string, string>, svc: Services, files: map<string, Json>, requests: seq<string>)
    requires !HasKey(env)
    ensures Run(env, svc, files, requests).files == files
    ensures Run(env, svc, files, requests).requests == requests
    ensures Run(env, svc, files, requests).outcome.Aborted?
  {
  }

  /** At most one request per generation, appended after those already
      sent, and always the run's request; a finished run sends exactly one
      per generation. */
  lemma {:induction false} GenerationsRequests(reply: nat -> Reply, gate: string -> Result<SyntheticCaseOutput>,
                                               path: nat -> string, pending: Result<string>, i: nat, n: nat,
                                               files: map<string, Json>, requests: seq<string>)
    requires i <= n
    ensures var r := Generations(reply, gate, path, pending, i, n, files, requests);
      && |requests| <= |r.requests| <= |requests| + (n - i)
      && r.requests[..|requests|] == requests
      && (forall k :: |requests| <= k < |r.requests| ==> pending.Ok? && r.requests[k] == pending.value)
      && (r.outcome.Finished? ==> |r.requests| == |requests| + (n - i))
    decreases n - i
  {
    if i < n && pending.Ok? && reply(|requests|).Text? {
      var files' := Saved(files, gate(reply(|requests|).text), path(i));
      var requests' := requests + [pending.value];
      GenerationsRequests(reply, gate, path, pending, i + 1, n, files', requests');
      var r := Generations(reply, gate, path, pending, i + 1, n, files', requests');
      assert r.requests[..|requests|] == r.requests[..|requests'|][..|requests|];
      assert r.requests[|requests|] == r.requests[..|requests'|][|requests|];
    }
  }

  /** Generations leave every file other than their own untouched. */
  lemma {:induction false} GenerationsTouchOnlyOwnPaths(reply: nat -> Reply, gate: string -> Result<SyntheticCaseOutput>,
                                                        path: nat -> string, pending: Result<string>, i: nat, n: nat,
                                                        files: map<string, Json>, requests: seq<string>, p: string)
    requires forall j :: i <= j < n ==> p != path(j)
    ensures var r := Generations(reply, gate, path, pending, i, n, files, requests);
      (p in r.files <==> p in files) && (p in files ==> r.files[p] == files[p])
    decreases n - i
  {
    if i < n && pending.Ok? && reply(|requests|).Text? {
      var files' := Saved(files, gate(reply(|requests|).text), path(i));
      assert p != path(i);
      GenerationsTouchOnlyOwnPaths(reply, gate, path, pending, i + 1, n, files', requests + [pending.value], p);
    }
  }

  /** When every reply passes the gate and no two generations share a path,
      each generation's case is on disk under its own path at the end.
      Generation `j` reads reply `base + j`, `base` being the replies
      consumed before generation 0. */
  lemma {:induction false} EveryAcceptedCaseKept(reply: nat -> Reply, gate: string -> Result<SyntheticCaseOutput>,
                                                path: nat -> string, pending: Result<string>, i: nat, n: nat,
                                                files: map<string, Json>, requests: seq<string>, base: int)
    requires i <= n && pending.Ok? && |requests| == base + i
    requires forall k :: base + i <= k < base + n ==> reply(k).Text? && gate(reply(k).text).Ok?
    requires forall j, j' :: i <= j < j' < n ==> path(j) != path(j')
    ensures var r := Generations(reply, gate, path, pending, i, n, files, requests);
      forall j :: i <= j < n ==>
        path(j) in r.files && r.files[path(j)] == ToJson(gate(reply(base + j).text).value)
    decreases n - i
  {
    if i < n {
      var verdict := gate(reply(base + i).text);
      var files' := Saved(files, verdict, path(i));
      var requests' := requests + [pending.value];
      assert Generations(reply, gate, path, pending, i, n, files, requests)
          == Generations(reply, gate, path, pending, i + 1, n, files', requests');
      assert path(i) in files' && files'[path(i)] == ToJson(verdict.value);
      GenerationsTouchOnlyOwnPaths(reply, gate, path, pending, i + 1, n, files', requests', path(i));
      EveryAcceptedCaseKept(reply, gate, path, pending, i + 1, n, files', requests', base);
    }
  }

  /** Timestamps of one format give every generation of a run its own
      path. */
  lemma GenerationPathsDistinct(clock: nat -> string, i: nat, n: nat)
    requires forall j :: i <= j < n ==> |clock(j)| == |clock(i)|
    ensures forall j, j' :: i <= j < j' < n ==> GenerationPaths(clock)(j) != GenerationPaths(clock)(j')
  {
    forall j, j' | i <= j < j' < n
      ensures GenerationPaths(clock)(j) != GenerationPaths(clock)(j')
    {
      OutputPathInjective(clock(j), clock(j'), j + 1, j' + 1);
    }
  }

  /** A run finishes exactly when retrieval succeeds (or there is nothing to
      generate) and no call to the endpoint raises. */
  lemma {:induction false} GenerationsFinishIff(reply: nat -> Reply, gate: string -> Result<SyntheticCaseOutput>,
                                               path: nat -> string, pending: Result<string>, i: nat, n: nat,
                                               files: map<string, Json>, requests: seq<string>)
    requires i <= n
    ensures Generations(reply, gate, path, pending, i, n, files, requests).outcome.Finished?
        <==> i == n || (pending.Ok? && forall k :: |requests| <= k < |requests| + (n - i) ==> reply(k).Text?)
    decreases n - i
  {
    if i < n && pending.Ok? && reply(|requests|).Text? {
      var files' := Saved(files, gate(reply(|requests|).text), path(i));
      GenerationsFinishIff(reply, gate, path, pending, i + 1, n, files', requests + [pending.value]);
    }
  }
}
