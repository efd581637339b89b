# Synthetic patient-navigator cases: generation pipeline and annotation app

This project models, in Dafny, the repository's two halves.

The **case pipeline** is four scripts:
- `ingest_seeds.py` turns hand-written seed cases into documents and metadata for a vector store.
- `generate_synthetic.py` pulls two seed cases from that store as few-shot examples and builds a long prompt from three taxonomies. It asks a language model for a `SyntheticCaseOutput` (a state log, reasoning triples and an RL scenario). It strips the reply's markdown fences, validates the reply against the pydantic schema and saves it under a timestamped name.
- `generate_batch_25.py` does the same for 25 cases with drawn patients and frictions. Each case gets three attempts, with rate-limit waits and success and failure counters.
- `upload_cases.py` inserts the batch's files, sorted by name, as rows `Case_1`, `Case_2`, … of the `synthetic_cases` table.

The **annotation app** is a Streamlit site:
- The login page derives a deterministic e-mail and password from a name and a 4-digit PIN (`app/auth.py`, `app/pages/login.py`).
- The entry script routes between pages and guards the navigator pages (`streamlit_app.py`).
- The navigator dashboard splits the cases into pending, in-progress and completed, each sorted by the number in the label (`app/pages/pn_dashboard.py`).
- The evaluation page pre-fills every widget from the saved answers and re-saves all answers on every render (`app/pages/annotation.py`).
- The admin dashboard counts each navigator's progress (`app/pages/admin_dashboard.py`).

The model has one module per source file:

| module | file | flavour |
|---|---|---|
| `PyValues` | (shared) | JSON values and the Python built-ins the code relies on: `dict.get`, `str.strip`/`lower`/`title`/`replace`, `removeprefix`, `in` on strings, `" ".join`, `sorted` on strings, `int(...)`, `str(...)` |
| `Schema` | generate_synthetic.py | the pydantic models as a validator over JSON, and `model_dump` |
| `GenerateSynthetic` | generate_synthetic.py | pure functions plus a `Workspace` class (files written, requests sent, pauses) updated by methods with loops |
| `GenerateBatch25` | generate_batch_25.py | the same, for the 25-case loop with its inner retry loop |
| `IngestSeeds` | ingest_seeds.py | document and metadata builders with their loops |
| `UploadCases` | upload_cases.py | row building, file order, labels |
| `Auth` | app/auth.py | a `SessionState` class with `st.session_state` as a `map` field |
| `Login`, `StreamlitApp`, `PnDashboard`, `Annotation`, `AdminDashboard` | the pages | page logic as functions, button handlers as methods on `SessionState` |

Everything outside the process appears as a parameter, never as hidden state:
- the language model: attempt `k`'s reply;
- the vector store: a query function;
- Supabase: responses and insert results;
- `json.loads`/`json.dumps`: functions on text and values;
- `os.listdir`: a list of names;
- the clock and `random.choice`: indexed functions.

One block of the code cannot be modelled as written. In `app/pages/annotation.py` the body of the "Submit Evaluation" button (lines 307-322) is indented inconsistently: line 312 is indented deeper than line 308, which Python rejects with an `IndentationError`. `streamlit_app.py:18` imports the annotation page at module level, so as written the entry script itself fails to import and no page loads. The model describes every page's code apart from that block; session completion is not modelled (see "## Left out").

## Model

| member | source | states |
|---|---|---|
| PyValues.Lookup | generate_synthetic.py:68-72 | a JSON object's field is found exactly when some entry has that key, and the value returned belongs to such an entry |
| PyValues.LookupDistinct | generate_synthetic.py:68-72 | with distinct keys, each entry's key finds that entry's value |
| PyValues.Get | ingest_seeds.py:68-70 | `dict.get` succeeds only on an object; it yields the field when present and the default otherwise |
| PyValues.Collect | app/pages/annotation.py:219-239 | a list of results succeeds exactly when every element does, elementwise; otherwise the error is that of the first failing element |
| PyValues.CollectFirstErr | app/pages/annotation.py:219-239 | the first failing element, after an all-success prefix, decides the error |
| PyValues.LStrip | app/auth.py:15 | left strip removes only a prefix and leaves no leading whitespace |
| PyValues.RStrip | app/auth.py:15 | right strip keeps a prefix and leaves no trailing whitespace |
| PyValues.StripTrimmed | generate_synthetic.py:181 | `strip()` leaves no whitespace at either end |
| PyValues.StripOfTrimmed | generate_synthetic.py:181 | `strip()` leaves already-trimmed text unchanged |
| PyValues.Lower | app/auth.py:15 | `lower()` keeps the length and lowers each character |
| PyValues.Title | streamlit_app.py:28 | `title()` keeps the length |
| PyValues.RemovePrefixSpec | generate_synthetic.py:181 | `removeprefix` removes the prefix exactly when it is there, and otherwise changes nothing |
| PyValues.RemoveSuffixSpec | generate_synthetic.py:181 | `removesuffix` removes a non-empty suffix exactly when it is there, and otherwise changes nothing |
| PyValues.ContainsAt | generate_batch_25.py:105 | a text placed inside another is found by `in` |
| PyValues.ContainsWitness | generate_batch_25.py:105 | when `in` holds, there is a position where the text occurs |
| PyValues.ReplaceAllAbsent | ingest_seeds.py:129 | `replace` changes nothing when the pattern does not occur |
| PyValues.SortStrs | upload_cases.py:27-30 | `sorted` on names is a permutation of its input |
| PyValues.SortStrsSorted | upload_cases.py:27-30 | `sorted` on names is in ascending string order |
| PyValues.SortedUnique | upload_cases.py:27-30 | two sorted permutations of the same names are equal, so the order does not depend on the listing |
| PyValues.StrLeTotal | upload_cases.py:27-30 | the string order is total |
| PyValues.StrLeTrans | upload_cases.py:27-30 | the string order is transitive |
| PyValues.StrLeAntisymmetric | upload_cases.py:27-30 | the string order is antisymmetric |
| PyValues.JoinWith | ingest_seeds.py:60 | joining a single part yields that part |
| PyValues.JoinStrs | ingest_seeds.py:33 | `"; ".join(list)` succeeds exactly when every item is a string, and then joins their texts |
| PyValues.NatToString | upload_cases.py:42 | decimal rendering: non-empty, all digits, and no leading zero from 10 up |
| PyValues.NatToStringInjective | upload_cases.py:42 | different numbers render differently |
| PyValues.Pad2 | generate_batch_25.py:96 | `:02d` gives two characters below 100, and the plain rendering from 10 up |
| PyValues.Pad2Injective | generate_batch_25.py:96 | different numbers pad to different texts |
| PyValues.ParseInt | generate_synthetic.py:37 | `int(text)` fails on blank text |
| PyValues.ParseIntOfDigits | generate_synthetic.py:37 | `int` of a string of digits is its decimal value |
| PyValues.ParseIntOfNat | generate_synthetic.py:37 | `int` reads back every rendered natural number |
| PyValues.IntOf | ingest_seeds.py:73-76 | `int(value)` of a JSON value: an integer is itself; null, lists and objects raise |
| PyValues.Str | ingest_seeds.py:79 | `str(value)` is the text itself for a string; for a list or dict it starts with its bracket |
| Schema.ParseImpact | generate_synthetic.py:48-49 | the literal accepts exactly "Improves", "Worsens" and "Unchanged", as the value named |
| Schema.ParseAdoption | generate_synthetic.py:50 | the literal accepts exactly "Positive", "Negative" and "Unchanged" |
| Schema.ParseCategory | generate_synthetic.py:63 | the literal accepts exactly "Passive", "Proactive" and "Overstep" |
| Schema.ImpactTextParses | generate_synthetic.py:48-49 | every impact's text parses back to it |
| Schema.AdoptionTextParses | generate_synthetic.py:50 | every adoption value's text parses back to it |
| Schema.CategoryTextParses | generate_synthetic.py:63 | every category's text parses back to it |
| Schema.StrField | generate_synthetic.py:46-47 | a `str` field validates exactly when present as a string, to that string |
| Schema.ImpactField | generate_synthetic.py:48-49 | an impact field validates exactly when present with an allowed literal |
| Schema.AdoptionField | generate_synthetic.py:50 | an adoption field validates exactly when present with an allowed literal |
| Schema.CategoryField | generate_synthetic.py:63 | a category field validates exactly when present with an allowed literal |
| Schema.ListField | generate_synthetic.py:68-71 | a `List[...]` field validates only when present as a list |
| Schema.EntryRoundTrip | generate_synthetic.py:46-52 | validating a dumped state-log entry gives the entry back |
| Schema.TripleRoundTrip | generate_synthetic.py:55-59 | validating a dumped triple gives the triple back |
| Schema.OptionRoundTrip | generate_synthetic.py:62-65 | validating a dumped RL option gives the option back |
| Schema.EntriesRoundTrip | generate_synthetic.py:69 | the same for a whole state log |
| Schema.TriplesRoundTrip | generate_synthetic.py:70 | the same for all triples |
| Schema.OptionsRoundTrip | generate_synthetic.py:71 | the same for all RL options |
| Schema.ValidateDumpRoundTrip | generate_synthetic.py:68-72 | `model_validate(model_dump(c)) == c` for every case |
| Schema.ListLengthsUnconstrained | generate_synthetic.py:68-72 | empty logs and triples, and any number of RL options, validate: the schema bounds no list length |
| Schema.MissingTopLevelFieldFails | generate_synthetic.py:68-72 | missing any of the four top-level fields fails validation |
| Schema.StateLogEnumsEnforced | generate_synthetic.py:46-52 | an accepted entry's three impact fields hold allowed literals |
| Schema.UnclearRejected | generate_synthetic.py:48-50 | "Unclear", which the annotation page offers, is rejected in any impact field of a generated case |
| Schema.OptionCategoryEnforced | generate_synthetic.py:62-63 | an accepted option's category is one of the three literals |
| Schema.ValidateCaseShape | generate_synthetic.py:68-72 | an accepted document has the summary string and three lists, each as long as the corresponding part of the case |
| Schema.ValidateCase | generate_synthetic.py:68-72 | an accepted document is an object holding the three list fields and, as `narrative_summary`, the accepted summary string |
| Schema.ToJson | generate_synthetic.py:68-72 | `model_dump` gives an object with exactly the four fields in declaration order, each list as long as the case's and the summary as a string |
| GenerateSynthetic.IntSetting | generate_synthetic.py:37-41 | an unset variable gives the default; a set one succeeds exactly when `int` accepts it |
| GenerateSynthetic.DefaultConfiguration | generate_synthetic.py:37-41 | an empty environment gives complexity 4, "Managed Medicare Auth", "78yo Female, CHF" and one generation |
| GenerateSynthetic.ConfigurationFromEnvironment | generate_synthetic.py:37-41 | each of the four variables, when set, overrides its setting |
| GenerateSynthetic.MalformedNumberRejected | generate_synthetic.py:37-41 | a malformed `COMPLEXITY_GTE` or `BATCH_SIZE` stops the import |
| GenerateSynthetic.LoadConfig | generate_synthetic.py:37-41 | the import succeeds exactly when both `COMPLEXITY_GTE` and `BATCH_SIZE` are unset or read as integers |
| GenerateSynthetic.FenceFreeUnchanged | generate_synthetic.py:181 | the fence stripping leaves a trimmed reply without fences as it is |
| GenerateSynthetic.FencedDocumentRecovered | generate_synthetic.py:181 | a body wrapped in a ```` ```json ```` fence, with any surrounding whitespace, comes out exactly |
| GenerateSynthetic.StripFences | generate_synthetic.py:181 | the stripped reply has no leading or trailing whitespace |
| GenerateSynthetic.CleanReplyAccepted | generate_synthetic.py:181-193 | a clean reply that decodes to a dumped case is accepted as that case |
| GenerateSynthetic.FencedReplyAccepted | generate_synthetic.py:181-193 | so is that case inside a fence |
| GenerateSynthetic.ParseAndValidate | generate_synthetic.py:181-193 | an accepted reply decodes as JSON; a decoding failure is reported as "JSON parse failed: …" and a decoded but invalid one as "Pydantic validation failed: …" |
| GenerateSynthetic.OutputPathInjective | generate_synthetic.py:197-198 | timestamps of one width and run indices never collide in the output name |
| GenerateSynthetic.Workspace.constructor | generate_synthetic.py:208 | a run starts with no files written, no requests and no pauses |
| GenerateSynthetic.ValidateAndSave | generate_synthetic.py:178-203 | returns the case exactly when the gate accepts; writes its dump under the timestamped path, and writes nothing otherwise |
| GenerateSynthetic.RetrieveFewShotExamples | generate_synthetic.py:83-99 | the loop's result is the examples kept from the query's metadata records, in order |
| GenerateSynthetic.FewShotAtMostReturned | generate_synthetic.py:91-99 | never more examples than records returned |
| GenerateSynthetic.FewShotFailsAt | generate_synthetic.py:91-99 | a record whose payload is not text makes the retrieval raise |
| GenerateSynthetic.FewShotFailureWitness | generate_synthetic.py:91-99 | a failed retrieval names such a record |
| GenerateSynthetic.FewShotFailsIff | generate_synthetic.py:91-99 | retrieval raises exactly when some record's payload is non-empty and not text; decode errors are skipped |
| GenerateSynthetic.FewShotKeepsDecodable | generate_synthetic.py:91-99 | when every payload decodes, every document is kept, in record order |
| GenerateSynthetic.PromptCoreTrimmed | generate_synthetic.py:114-175 | the template text is trimmed, starts with the friction taxonomy section and ends with the schema section |
| GenerateSynthetic.PromptIsTemplate | generate_synthetic.py:175 | `prompt.strip()` is the template itself, with the same first and last sections |
| GenerateSynthetic.PromptCoreHasSections | generate_synthetic.py:114-174 | the template holds the action taxonomy, outcome taxonomy, examples and task sections |
| GenerateSynthetic.PromptHasSections | generate_synthetic.py:102-175 | so does the prompt returned |
| GenerateSynthetic.BuildPrompt | generate_synthetic.py:102-175 | the prompt returned carries no leading or trailing whitespace |
| GenerateSynthetic.PromptNamesTargets | generate_synthetic.py:137-138 | the prompt names the target patient and friction |
| GenerateSynthetic.PromptCountsExamples | generate_synthetic.py:128-130 | the prompt states how many examples it embeds, followed by their dump |
| GenerateSynthetic.Generate | generate_synthetic.py:272-287 | one pass sends the request, then saves the gated reply or stops on the exception, as one step of the run's specification |
| GenerateSynthetic.GenerationsStep | generate_synthetic.py:253-287 | a run is its first generation followed by the rest, unless that generation stops it |
| GenerateSynthetic.Generations | generate_synthetic.py:253-287 | the remaining generations only append requests, at most one per generation left, and never remove a written path |
| GenerateSynthetic.RunGeneration | generate_synthetic.py:208-289 | `main` leaves the files, requests and outcome its specification gives, and pauses never |
| GenerateSynthetic.Run | generate_synthetic.py:208-289 | `main` only appends requests and never removes a written path |
| GenerateSynthetic.Setup | generate_synthetic.py:208-233 | setup succeeds only with a key and a configuration that loads, which it returns; without a key it fails |
| GenerateSynthetic.GenerateBatch | generate_synthetic.py:253-287 | the loop performs generations 0 to `BATCH_SIZE - 1` as specified |
| GenerateSynthetic.NoKeyNoRequest | generate_synthetic.py:209-214 | without a key nothing is sent or written and the run stops |
| GenerateSynthetic.GenerationsRequests | generate_synthetic.py:253-287 | each generation sends the same request at most once; a finished run sends exactly one per generation, after the earlier ones |
| GenerateSynthetic.GenerationsTouchOnlyOwnPaths | generate_synthetic.py:196-200 | a run writes to no path other than its own generations' |
| GenerateSynthetic.EveryAcceptedCaseKept | generate_synthetic.py:253-287 | with distinct paths and all replies accepted, every generation's case is found under its own path |
| GenerateSynthetic.GenerationPathsDistinct | generate_synthetic.py:198 | clock readings of one width give each generation its own path |
| GenerateSynthetic.GenerationsFinishIff | generate_synthetic.py:253-287 | a run finishes exactly when it has no generation left or every call returns text |
| GenerateBatch25.CaseTargets | generate_batch_25.py:79-80 | each case's patient and friction come from the two lists |
| GenerateBatch25.CasePathInjective | generate_batch_25.py:96 | different cases get different file names |
| GenerateBatch25.CasePathWidth | generate_batch_25.py:96 | the 25 files' names all have the same length |
| GenerateBatch25.AttemptAgreesWithGate | generate_batch_25.py:92-94 | an attempt accepts exactly the replies the single-run gate accepts, as the same case |
| GenerateBatch25.StatusCodeIsRateLimit | generate_batch_25.py:105 | a message containing 429 is a rate limit |
| GenerateBatch25.RateInAnyCaseIsRateLimit | generate_batch_25.py:105 | so is one containing "rate" in any mix of cases |
| GenerateBatch25.GenerateIsRateLimit | generate_batch_25.py:105 | so is one that only contains "generate": the substring test misfires |
| GenerateBatch25.PauseValues | generate_batch_25.py:105-114 | a failed attempt pauses for 60·(attempt+1) s on a rate limit, otherwise 5 s, or nothing after the last; never 2 s |
| GenerateBatch25.Calls | generate_batch_25.py:87-102 | a case makes one to three calls, every one but the last failing, and stops early only on success |
| GenerateBatch25.CaseRequests | generate_batch_25.py:87-91 | a case sends its request once per call |
| GenerateBatch25.CaseTally | generate_batch_25.py:101-112 | a case adds a success exactly when its last call succeeds, and a failure exactly when that call fails without a rate limit |
| GenerateBatch25.Attempts | generate_batch_25.py:87-114 | the attempts only append requests and pauses, at most one request per attempt left, and the counters grow by at most one in total |
| GenerateBatch25.CaseFiles | generate_batch_25.py:96-98 | a succeeding case writes its dump to its own file; a failing case writes nothing |
| GenerateBatch25.CasePauses | generate_batch_25.py:105-114 | a case's pauses are those of its failed calls, in order |
| GenerateBatch25.RateLimitedLastAttemptUncounted | generate_batch_25.py:105-112 | a case whose last attempt is rate-limited counts as neither success nor failure |
| GenerateBatch25.CasesTally | generate_batch_25.py:78-116 | the counters only grow, by at most one per remaining case |
| GenerateBatch25.Cases | generate_batch_25.py:78-116 | the remaining cases only append requests and pauses, and the counters only grow, by at most one per case left |
| GenerateBatch25.CasesRequests | generate_batch_25.py:78-116 | the batch appends at most three requests per case and keeps the earlier log |
| GenerateBatch25.CountConcat | generate_batch_25.py:116 | counting a pause over two logs adds up |
| GenerateBatch25.CaseWaitsNoCasePause | generate_batch_25.py:105-116 | no retry pause is the 2 s pause between cases |
| GenerateBatch25.CasesPauseAfterEvery | generate_batch_25.py:116 | a finished batch pauses 2 s once after every case |
| GenerateBatch25.CasesTouchOnlyCaseFiles | generate_batch_25.py:96-98 | the batch writes only its own case files |
| GenerateBatch25.BatchTallyBound | generate_batch_25.py:75-118 | successes plus failures never exceed 25 |
| GenerateBatch25.BatchRun | generate_batch_25.py:48-118 | a batch run only appends requests and pauses, and its successes plus failures never exceed 25 |
| GenerateBatch25.RunCase | generate_batch_25.py:87-114 | the attempt loop leaves the state its specification gives |
| GenerateBatch25.RunBatch | generate_batch_25.py:48-118 | `main` leaves the files, requests, pauses and counters its specification gives |
| GenerateBatch25.RunCases | generate_batch_25.py:78-116 | the case loop performs the 25 cases as specified |
| IngestSeeds.ListOrStringPart | ingest_seeds.py:31-58 | a list or string gives a part with its heading, anything else none; a list with a non-string raises |
| IngestSeeds.PhysicalPart | ingest_seeds.py:38-40 | a part exactly for a non-empty string, prefixed by its heading; nothing for a falsy value |
| IngestSeeds.Iterate | ingest_seeds.py:45 | `for triple in triples` works on lists, strings and dicts only |
| IngestSeeds.TripleSummary | ingest_seeds.py:45-49 | a triple that is an object gives a summary exactly when its situation or intent is truthy |
| IngestSeeds.Somes | ingest_seeds.py:44-49 | the kept summaries are at most the triples |
| IngestSeeds.SomesEmptyIff | ingest_seeds.py:50 | no summary is kept exactly when every triple gives none |
| IngestSeeds.SomesSnoc | ingest_seeds.py:44-49 | appending agrees with the loop's `append` |
| IngestSeeds.ReasoningPresentIff | ingest_seeds.py:50-51 | the reasoning part is present exactly when some triple gives a summary |
| IngestSeeds.EmptySeedParts | ingest_seeds.py:28-58 | an empty seed still gives the clinical and chaos parts, with empty lists |
| IngestSeeds.EmptySeedDocument | ingest_seeds.py:22-60 | an empty seed's document reads "Clinical Barriers:  \| Chaos Signals: " |
| IngestSeeds.EmptySeedText | ingest_seeds.py:33-60 | the two headings joined by the separator give that text |
| IngestSeeds.DocumentOrder | ingest_seeds.py:60 | the document starts with the clinical part and ends with the chaos part |
| IngestSeeds.SummarizeTriples | ingest_seeds.py:43-51 | the triples loop computes the specified summaries |
| IngestSeeds.BuildDocumentString | ingest_seeds.py:22-60 | `build_document_string` computes the specified document |
| IngestSeeds.DocumentString | ingest_seeds.py:22-60 | the document is built exactly when the seed's sections are as required, and never for a seed that is not an object |
| IngestSeeds.ComplexityScore | ingest_seeds.py:73-76 | the score is `int` of the value, or 0 when `int` raises |
| IngestSeeds.SkilledNeed | ingest_seeds.py:82-83 | the flag is always "Yes" or "No" |
| IngestSeeds.SkilledNeedBool | ingest_seeds.py:83 | `True` gives "Yes", `False` gives "No" |
| IngestSeeds.SkilledNeedDigit | ingest_seeds.py:83 | 1 gives "Yes", 0 gives "No" |
| IngestSeeds.SkilledNeedWord | ingest_seeds.py:83 | a padded word gives "Yes" exactly when its lowered core is yes, true or 1 |
| IngestSeeds.PrimaryFriction | ingest_seeds.py:86-90 | a falsy value gives "Unknown", a non-empty list its first element, anything else its `str` |
| IngestSeeds.MetadataDict | ingest_seeds.py:63-98 | succeeds exactly when the seed and its three sections are objects, and is then the five-key record |
| IngestSeeds.RecordKeys | ingest_seeds.py:92-98 | the metadata has exactly the five keys |
| IngestSeeds.Record | ingest_seeds.py:92-98 | the record has exactly the five metadata keys and keeps the raw JSON text under `raw_json` |
| IngestSeeds.RecordValues | ingest_seeds.py:92-98 | it carries the raw JSON, an integer score, a text outcome and a "Yes"/"No" flag |
| IngestSeeds.ComplexityFallback | ingest_seeds.py:73-76 | a missing or non-numeric score becomes 0 |
| IngestSeeds.SeedRetrievable | ingest_seeds.py:97 | a seed's stored payload is read back by the retrieval as the seed itself |
| IngestSeeds.ExtensionRemoved | ingest_seeds.py:129 | `replace(".json", "")` on an undotted stem plus ".json" gives the stem |
| IngestSeeds.CaseIdFallback | ingest_seeds.py:129 | without a `case_id` the id is the file name's stem |
| IngestSeeds.CaseId | ingest_seeds.py:129 | an id is found only in an object; an object without `case_header` gets the file name with ".json" removed |
| IngestSeeds.SeedOfParts | ingest_seeds.py:121-142 | a loaded seed's id, document and metadata are those of the loaded JSON |
| IngestSeeds.SeedOf | ingest_seeds.py:121-142 | a loaded seed comes from a file that decodes; its metadata has the five keys and its `raw_json` is the dump of the loaded JSON |
| IngestSeeds.ListsSnoc | ingest_seeds.py:140-142 | the three lists grow together |
| IngestSeeds.IngestLockstep | ingest_seeds.py:117-145 | a successful upsert sends, for every seed file in order, its id, document and metadata at the same position |
| IngestSeeds.IngestFailsIff | ingest_seeds.py:108-145 | ingestion fails exactly when there are seed files and one of them fails to load |
| IngestSeeds.Ingest | ingest_seeds.py:108-145 | ingestion reports no seed files exactly when the listing has none, and upserts one id, document and record per seed file |
| IngestSeeds.NoSeedFilesIff | ingest_seeds.py:108-115 | nothing is upserted exactly when no name ends in ".json" |
| IngestSeeds.LoadSeed | ingest_seeds.py:122-142 | one pass of the loop computes the specified seed |
| IngestSeeds.IngestSeedCases | ingest_seeds.py:101-147 | the script computes the specified ingestion |
| UploadCases.Credentials | upload_cases.py:23-24 | both URL and key are required; the service-role key wins over the plain one |
| UploadCases.UploadFilesSorted | upload_cases.py:27-30 | the files are exactly the ".json" names, each once per listing entry, sorted |
| UploadCases.UploadOrderIndependent | upload_cases.py:27-30 | the upload order does not depend on the directory's listing order |
| UploadCases.CaseLabelInjective | upload_cases.py:42 | different positions give different labels |
| UploadCases.RowOf | upload_cases.py:40-47 | a row exactly for an object, with the batch id, the position's label and each field or its default |
| UploadCases.UploadRows | upload_cases.py:34-49 | a successful upload inserts one row per sorted file, labelled by position from 1 |
| UploadCases.Upload | upload_cases.py:22-51 | a missing credential makes the upload fail; a successful one inserts one row per ".json" file |
| UploadCases.LabelsDistinct | upload_cases.py:42 | the inserted labels are pairwise distinct |
| UploadCases.NumberedLabelsDistinct | upload_cases.py:42 | rows labelled by position have distinct labels |
| UploadCases.UploadFailsIff | upload_cases.py:23-49 | the upload fails exactly when a credential is missing or some file does not load as an object |
| UploadCases.UploadCasesMain | upload_cases.py:22-51 | the script computes the specified insertion |
| Auth.CleanName | app/auth.py:15 | the cleaned name has no spaces |
| Auth.NamePinToEmail | app/auth.py:13-16 | the e-mail ends in ".PIN@annotationplatform.com", with no space before it |
| Auth.Password | app/auth.py:23 | the password is "pin", the PIN, "xx" |
| Auth.PasswordInjective | app/auth.py:23 | different PINs give different passwords |
| Auth.NoSpaceLeft | app/auth.py:15 | replacing spaces by dots leaves no space |
| Auth.ReplaceCharConcat | app/auth.py:15 | replacing a character distributes over concatenation |
| Auth.LStripLower | app/auth.py:15 | left strip and lowering commute |
| Auth.RStripLower | app/auth.py:15 | right strip and lowering commute |
| Auth.LowerIdempotent | app/auth.py:15 | lowering twice is lowering once |
| Auth.EmailIgnoresCase | app/auth.py:15 | names that differ only in case give the same e-mail |
| Auth.StripSplit | app/auth.py:15 | every text is whitespace, its stripped core, whitespace |
| Auth.StripOuterSpace | app/auth.py:15 | outer whitespace does not change the stripped core |
| Auth.EmailIgnoresOuterSpace | app/auth.py:15 | names that differ only in outer whitespace give the same e-mail |
| Auth.CleanJoined | app/auth.py:15 | a space or dot between two name parts becomes a dot |
| Auth.LowerJoined | app/auth.py:15 | lowering keeps a space or dot separator |
| Auth.ReplaceJoined | app/auth.py:15 | replacing keeps the separator as a dot |
| Auth.EmailSpaceOrDot | app/auth.py:15 | "Ana Lopez" and "Ana.Lopez" share one account |
| Auth.SignUpError | app/auth.py:43-47 | a message mentioning registration becomes the duplicate message; any other is shown as raised |
| Auth.SignUp | app/auth.py:19-47 | sign-up succeeds exactly when a user is created and the profile insert succeeds; the no-user and exception cases give their messages |
| Auth.LowerNoUpper | app/auth.py:45 | lowering leaves text without upper case alone |
| Auth.LoweredPhraseFound | app/auth.py:45 | a lower-case phrase is found in the lowered text around it |
| Auth.DuplicateRecognised | app/auth.py:45-46 | any message containing "already registered" is reported as a duplicate |
| Auth.PhraseIsLower | app/auth.py:45 | the phrase is already lower case |
| Auth.DuplicateIgnoresCase | app/auth.py:45 | the duplicate test ignores case |
| Auth.Defaults | app/auth.py:104-113 | a fresh session is not authenticated and has an empty role and user id |
| Auth.IsAuthenticated | app/auth.py:104-105 | an absent flag reads as not authenticated, a stored `True` as authenticated |
| Auth.GetRole | app/auth.py:108-109 | an absent role reads as the empty string, a present one as stored |
| Auth.GetUserId | app/auth.py:112-113 | an absent user id reads as the empty string, a present one as stored |
| Auth.SignedOut | app/auth.py:96-101 | sign-out removes exactly the nine listed keys and keeps every other entry |
| Auth.SignOutIdempotent | app/auth.py:89-101 | signing out twice is signing out once |
| Auth.SignedOutReadsFresh | app/auth.py:96-113 | after sign-out the getters read as in a fresh session |
| Auth.SignInAuthenticatesOnSuccess | app/auth.py:50-86 | a successful sign-in leaves the session authenticated with the profile's role and the user's id; a failed one keeps the authentication flag as it was |
| Auth.SignInOutcome | app/auth.py:50-86 | signing in only adds keys, touches none but the six session keys, and on failure leaves `authenticated` as it was |
| Auth.SignInFailuresGeneric | app/auth.py:63-86 | every failure shows one of the two generic messages, and an exception always the "try again" one |
| Auth.SessionState.constructor | app/auth.py:104-113 | the session starts with the given entries |
| Auth.SessionState.SignOut | app/auth.py:89-101 | the pops leave the signed-out session |
| Auth.SessionState.SignIn | app/auth.py:50-86 | the writes of `sign_in` leave the specified session and result |
| Login.RegisterDecision | app/pages/login.py:29-35 | sign-up is called exactly for a non-empty name and a 4-digit PIN; missing fields are reported before the PIN format |
| Login.SignInDecision | app/pages/login.py:47-53 | sign-in is called exactly for a non-empty name and a 4-digit PIN, with the name checked first |
| Login.EmptyFieldsFirst | app/pages/login.py:30-33 | an empty field is reported as missing, never as a bad PIN |
| Login.FormsAgree | app/pages/login.py:29-53 | both forms accept the same name and PIN pairs |
| Login.RegisterMessage | app/pages/login.py:29-39 | registration reports success exactly when the checks pass and sign-up succeeds |
| Login.PageView | app/pages/login.py:16-19 | the forms are hidden exactly when the user is signed in |
| Login.SubmitSignIn | app/pages/login.py:47-57 | a rejected form changes nothing and shows its message; otherwise the session is as signed in and the error shows exactly on failure |
| StreamlitApp.RequireAuth | streamlit_app.py:57-65 | blocked exactly when signed out, or when a required role differs; signed out gives the warning |
| StreamlitApp.Route | streamlit_app.py:74-87 | the admin page is shown on request; navigator pages only to signed-in navigators; anything unknown shows login |
| StreamlitApp.RoleDisplay | streamlit_app.py:28 | "Patient Navigator" for navigators, the title-cased role otherwise; a role that is not text raises |
| StreamlitApp.SidebarButtons | streamlit_app.py:32-54 | three page buttons always; "Current Evaluation" exactly while a session is open; "Logout" exactly when signed in |
| StreamlitApp.Render | streamlit_app.py:68-87 | a missing page becomes "login", any other session entry is kept, and the page is routed |
| StreamlitApp.FirstVisitShowsLogin | streamlit_app.py:69-77 | the first visit shows the login page |
| StreamlitApp.Press | streamlit_app.py:32-54 | a button stores its page; logout first signs out; an unknown button changes nothing |
| StreamlitApp.ButtonPage | streamlit_app.py:32-54 | exactly the five sidebar buttons lead somewhere, and each to one of the four pages |
| StreamlitApp.LogoutClosesNavigatorPages | streamlit_app.py:49-54 | after logout no navigator page is reachable |
| PnDashboard.DigitRunEnd | app/pages/pn_dashboard.py:15 | the digit run from a position ends at the first non-digit |
| PnDashboard.FirstDigit | app/pages/pn_dashboard.py:15 | the search finds the first digit, or reports that there is none |
| PnDashboard.LabelSortKey | app/pages/pn_dashboard.py:13-16 | a missing label, or one without digits, has key 0 |
| PnDashboard.CaseLabelKey | app/pages/pn_dashboard.py:13-16 | "Case_n" has key n |
| PnDashboard.LabelSortKeyValue | app/pages/pn_dashboard.py:13-16 | a label whose first digit run is `d` sorts by the value of `d`, which is what `int(d)` reads |
| PnDashboard.InsertBy | app/pages/pn_dashboard.py:40 | insertion adds exactly the element |
| PnDashboard.SortBy | app/pages/pn_dashboard.py:40-52 | `sorted` by key is a permutation |
| PnDashboard.InsertBySorted | app/pages/pn_dashboard.py:40 | insertion keeps the order |
| PnDashboard.SortBySorted | app/pages/pn_dashboard.py:40-52 | `sorted` by key is ordered by key |
| PnDashboard.WithKeyCons | app/pages/pn_dashboard.py:40 | elements of one key are taken from the front in order |
| PnDashboard.InsertByPastHead | app/pages/pn_dashboard.py:40 | inserting past the head keeps the elements of each key in order |
| PnDashboard.InsertByWithKey | app/pages/pn_dashboard.py:40 | insertion goes in front of elements with the same key |
| PnDashboard.SortByStable | app/pages/pn_dashboard.py:40-52 | `sorted` is stable: elements of each key keep their input order |
| PnDashboard.ByCase | app/pages/pn_dashboard.py:42 | the map has exactly the case ids of the sessions |
| PnDashboard.ByCaseLaterWins | app/pages/pn_dashboard.py:42 | for a repeated case id the later session is kept |
| PnDashboard.ById | app/pages/pn_dashboard.py:41 | the map has exactly the case ids |
| PnDashboard.PendingCases | app/pages/pn_dashboard.py:44 | the pending cases are exactly the cases without a session |
| PnDashboard.WithStatus | app/pages/pn_dashboard.py:45-52 | the filter keeps exactly the sessions with the status |
| PnDashboard.SortedByTail | app/pages/pn_dashboard.py:40 | an ordered list's tail is ordered and not below its head |
| PnDashboard.SortedByCons | app/pages/pn_dashboard.py:40 | an element not above an ordered list extends it in order |
| PnDashboard.PendingSorted | app/pages/pn_dashboard.py:44 | the pending list keeps the label order |
| PnDashboard.PendingIff | app/pages/pn_dashboard.py:40-44 | a case is pending exactly when none of the navigator's sessions is for it, in label order |
| PnDashboard.NoSessionFor | app/pages/pn_dashboard.py:42-44 | an id is missing from the map exactly when no session has it |
| PnDashboard.StatusListsExact | app/pages/pn_dashboard.py:45-52 | each status list holds exactly the sessions with that status, sorted by label and stable for equal keys |
| PnDashboard.Partition | app/pages/pn_dashboard.py:40-52 | the in-progress and completed lists hold only the navigator's sessions with that status, and no more cases are pending than exist |
| PnDashboard.OtherStatusHidden | app/pages/pn_dashboard.py:45-52 | a session with any other status is in neither list |
| PnDashboard.Summary | app/pages/pn_dashboard.py:60 | the summary is the first 120 characters followed by "..." |
| PnDashboard.SessionLine | app/pages/pn_dashboard.py:57-60 | the session's own non-empty label wins, then the case's ("None" when NULL, "" when unlisted); an unlisted case shows "Unknown case"; a listed case with a NULL summary raises TypeError, exactly then |
| PnDashboard.PendingLine | app/pages/pn_dashboard.py:76-79 | a pending case shows its label ("None" when NULL) and its summary, and raises TypeError exactly when the summary is NULL |
| PnDashboard.PendingListed | app/pages/pn_dashboard.py:44-77 | every pending id is in the case map, so `cases_dict[case_id]` never fails |
| PnDashboard.Resume | app/pages/pn_dashboard.py:65-69 | Resume opens the session's case on the annotation page and keeps every other entry |
| PnDashboard.StartRow | app/pages/pn_dashboard.py:78-95 | the inserted row is the case, its label as stored (NULL stays NULL), the navigator's id and name ("Navigator" when none is stored), and "in_progress" |
| PnDashboard.Start | app/pages/pn_dashboard.py:84-99 | on success the annotation page opens on the new session; a failed insert changes nothing and is reported |
| PnDashboard.StartedCaseMoves | app/pages/pn_dashboard.py:44-48 | a started case leaves the pending list and appears in progress |
| Annotation.RetryOutcome | app/pages/annotation.py:19-27 | at most `retries` calls; a value follows only stale-connection errors; that error escapes only from the last attempt; `None` only when no attempt is allowed |
| Annotation.Retry | app/pages/annotation.py:19-27 | with no attempts left nothing is called; otherwise the result is a value or the raised error, reached after at least one more attempt and at most `retries` in all |
| Annotation.RetryCall | app/pages/annotation.py:19-27 | the loop behaves as specified |
| Annotation.IndexOf | app/pages/annotation.py:157 | `list.index` finds the first occurrence |
| Annotation.DefaultIndex | app/pages/annotation.py:155-157 | a saved value among the options is pre-selected; anything else selects the first option |
| Annotation.SelectBox | app/pages/annotation.py:158-163 | the widget shows an option: the user's when valid, otherwise the default |
| Annotation.Slider | app/pages/annotation.py:229-235 | the slider shows the user's value when set, otherwise the default |
| Annotation.BottleneckDefault | app/pages/annotation.py:197 | "False" is pre-selected exactly when a saved falsy answer exists |
| Annotation.ScoreDefault | app/pages/annotation.py:228-233 | the score starts at 3 when never saved, otherwise at the saved integer |
| Annotation.AuthenticityDefault | app/pages/annotation.py:287-293 | the overall score starts at 3 when unsaved or falsy, otherwise at the saved value |
| Annotation.Choice | app/pages/annotation.py:155-195 | each answer is one of its offered options |
| Annotation.Format1Entry | app/pages/annotation.py:206-213 | an event's entry carries its position and four answers from the offered options |
| Annotation.Format2Entry | app/pages/annotation.py:219-239 | a triple's entry exists exactly when its saved score converts, and carries its position |
| Annotation.Format3Entry | app/pages/annotation.py:247-267 | an option's entry exists exactly when the option is an object; it carries its position, a category from the list and the option's own category |
| Annotation.BuildFormat1Inputs | app/pages/annotation.py:142-213 | the f1 loop computes the specified entries |
| Annotation.BuildFormat2Inputs | app/pages/annotation.py:219-239 | the f2 loop computes the specified entries or the first error |
| Annotation.BuildFormat3Inputs | app/pages/annotation.py:247-267 | the f3 loop computes the specified entries or the first error |
| Annotation.InputsIndexed | app/pages/annotation.py:142-267 | there is one entry per item, numbered from 0; f2 and f3 fail exactly on a bad item |
| Annotation.Merged | app/pages/annotation.py:86-94 | each row holds the common and the input columns, and the input's value wins |
| Annotation.SaveAnswers | app/pages/annotation.py:74-95 | three deletes first, then one non-empty insert per non-empty list |
| Annotation.SaveInsertsEachFormat | app/pages/annotation.py:85-95 | each table receives exactly its format's merged rows when there are any |
| Annotation.ApplyAllConcat | app/pages/annotation.py:74-95 | writes in sequence compose |
| Annotation.InsertIfAnyEffect | app/pages/annotation.py:85-95 | an insert appends the merged rows to its table only |
| Annotation.DeletesEffect | app/pages/annotation.py:78-80 | the deletes keep exactly the other sessions' rows of each eval table |
| Annotation.SaveReplacesSessionRows | app/pages/annotation.py:74-95 | after a save each eval table holds the other sessions' rows, then this session's merged inputs; other tables are untouched |
| Annotation.FilterKeeps | app/pages/annotation.py:78-80 | the rows kept are exactly those on the chosen side of the session test |
| Annotation.FilterConcat | app/pages/annotation.py:78-80 | filtering distributes over concatenation |
| Annotation.FilterUniform | app/pages/annotation.py:78-80 | rows all on one side are all kept or all dropped |
| Annotation.MergedOfSession | app/pages/annotation.py:82-94 | merged rows belong to the session |
| Annotation.SplitRows | app/pages/annotation.py:78-95 | other sessions' rows followed by this session's split back apart |
| Annotation.SavedSessionRows | app/pages/annotation.py:74-95 | after a save the session's rows in a table are exactly its merged inputs, and other sessions' rows are unchanged |
| Annotation.SaveIdempotent | app/pages/annotation.py:298-299 | saving the same answers twice, as two reruns with unchanged widgets do, equals saving once |
| Annotation.EntriesCarryNoSession | app/pages/annotation.py:206-267 | the page's entries never set `session_id` |
| Annotation.SessionColumns | app/pages/annotation.py:300-302 | the auto-save updates the overall score and no other column, so it never marks a session completed |
| Annotation.KeyRows | app/pages/annotation.py:67-69 | the dict exists exactly when every row has the field, and its keys are exactly the rows' values |
| Annotation.KeyRowsLaterWins | app/pages/annotation.py:67-69 | for a repeated key the later row is kept |
| Annotation.SavedByIndex | app/pages/annotation.py:67-69 | no data gives an empty dict |
| Annotation.SelectionRestored | app/pages/annotation.py:155-163 | a selectbox started from its own saved value shows it again |
| Annotation.Format1RowRead | app/pages/annotation.py:67-197 | a saved f1 row reads back as the answers it holds |
| Annotation.Format1EntryRestored | app/pages/annotation.py:142-213 | a saved entry is rebuilt unchanged when its widgets are untouched |
| Annotation.ResumeRestoresFormat1 | app/pages/annotation.py:67-213 | resuming after a save rebuilds exactly the saved f1 entries |
| Annotation.Format2EntryRestored | app/pages/annotation.py:219-239 | a saved triple score is rebuilt unchanged |
| Annotation.Format3EntryRestored | app/pages/annotation.py:247-267 | a saved category is rebuilt unchanged |
| Annotation.Enter | app/pages/annotation.py:101-108 | the page opens exactly with a session and case set; otherwise it returns to the dashboard |
| Annotation.BackToDashboard | app/pages/annotation.py:110-112 | the back button selects the dashboard |
| AdminDashboard.CountStatus | app/pages/admin_dashboard.py:57-59 | a count never exceeds the sessions; it is 0 exactly when no session is the navigator's with that exact status, and all of them exactly when every session is |
| AdminDashboard.CountNavigator | app/pages/admin_dashboard.py:57 | the navigator's session count never exceeds the sessions, and is 0 exactly when none is theirs |
| AdminDashboard.CountsWithinSessions | app/pages/admin_dashboard.py:57-59 | completed plus in-progress never exceed the navigator's sessions |
| AdminDashboard.OtherSessionIgnored | app/pages/admin_dashboard.py:57-59 | another navigator's session, or another status, changes no count |
| AdminDashboard.MatchingSessionCounted | app/pages/admin_dashboard.py:57-59 | a matching session adds one |
| AdminDashboard.RowFor | app/pages/admin_dashboard.py:57-67 | a row's counts plus remaining make the total, and progress reads "completed/total" |
| AdminDashboard.BuildProgress | app/pages/admin_dashboard.py:52-67 | the loop builds one row per navigator, in order |
| AdminDashboard.TotalCases | app/pages/admin_dashboard.py:47-52 | a missing count reads as 0, a present one as itself |
| AdminDashboard.ProgressTable | app/pages/admin_dashboard.py:52-67 | no navigators give no rows; otherwise one row per navigator, in order, named by the navigator's full name |
| AdminDashboard.RemainingCanBeNegative | app/pages/admin_dashboard.py:52-60 | a completed session with an empty case table gives remaining −1: it is not clamped |
| AdminDashboard.NoNavigatorsNoRows | app/pages/admin_dashboard.py:56-72 | no navigator data gives an empty table |

Members without a row are helper lemmas and functions. They serve the proofs above and model no line of their own. Examples are `Auth.ReplaceCharStep`, `GenerateSynthetic.PrependNothing` and `GenerateSynthetic.PrependOne`, `PnDashboard.SortByMembers`, and the string and list facts in `PyValues`, such as `StripAround`, `ContainsTail`, `SortedCons` and `DigitsTrimmed`.

## Left out

- Printing, Streamlit layout and messages that only display (titles, expanders, markdown, `st.info`/`st.success`) are left out, because they do not change state. Messages that decide what happens are modelled.
- `genai.configure`, the model name and the `temperature=0.8` generation setting are left out, because floating point and the client library are outside the model. The endpoint's reply to each request is a parameter.
- ChromaDB's `PersistentClient`, embeddings and nearest-neighbour ranking are left out, because they are external. The query is a function from query text, threshold and count to metadata records, and `upsert` is the result value of the ingestion.
- Supabase clients, `.single()`, `.order()`, tokens and caching are left out, because they are external. Responses are parameters; `set_session` is a flag saying whether it raises.
- `_retry`'s `st.cache_resource.clear()` is left out, because it only drops a client cache.
- `json.loads`/`json.dumps` and `model_json_schema` are oracles. The schema text is an opaque parameter of the prompt.
- Pydantic error messages are left out: the validator stops at the first error, with a message of its own, while pydantic reports all errors with their inputs (truncating long input reprs). Which replies are accepted, and as which case, is exact; the text of a rejection is not.
- GenerateBatch25.AttemptResult, GenerateBatch25.IsRateLimit and GenerateBatch25.CaseTally: because `generate_batch_25.py:104-105` classifies by a substring of the message, a validation failure may be classified differently from the code. For a state-log entry with `clinical_impact: "Unclear"` and `environmental_impact: "Moderate"`, pydantic's message lists both inputs and "Moderate" contains "rate", so the code waits as for a rate limit; the model's one-error message names only "Unclear" and counts an ordinary failure. Pydantic's truncation of long inputs can give the reverse.
- `datetime.now()` and `random.choice` are parameters indexed by generation. `time.sleep` only appends its duration to a log.
- Schema.StrField: pydantic's lax mode coercions (for example bytes to text) are not modelled. Only JSON strings are accepted as `str`.
- PyValues.Lower: `lower()`, `title()` and `isdigit()` use ASCII rules, because Unicode case mapping and character classes are outside the model. `strip()` (PyValues.IsSpace) does use Python's whitespace set.
- PnDashboard.LabelSortKey: `re`'s `\d` (app/pages/pn_dashboard.py:15) matches any Unicode decimal digit, and `int()` accepts them; the model recognises the ASCII digits only, so a label whose first digits are non-ASCII sorts differently.
- PyValues.Json: JSON numbers are integers only; there is no float. A float value cannot be expressed, so its truncation by `int()`, its truthiness and its `str()` are not modelled, at ingest_seeds.py:74-98 and app/pages/annotation.py:233 and 293.
- IngestSeeds.ComplexityScore: a float `complexity_score` (`int(4.5) == 4`, ingest_seeds.py:74) is not representable (see PyValues.Json), so the contract covers integer, missing and unconvertible scores only.
- PyValues.ParseInt: states only that blank text fails. The accepted forms are pinned by ParseIntOfDigits and ParseIntOfNat.
- PyValues.Title: states only the length beyond its use in messages.
- PyValues.JoinWith: its contract covers one part; the two-part and order facts are lemmas (JoinStartsWith, JoinEndsWith, JoinContains).
- Annotation.Slider: the 1-5 range check `st.slider` applies is not modelled. An out-of-range saved value is shown as given.
- Display-only lookups on the case are not modelled: `event["event_description"]`, `event['ai_assumed_bottleneck']`, `triple["situation"]`, `triple['action_taken']` and `option['description']`. They raise KeyError on a malformed stored case, which the model treats as well-formed.
- The annotation page's case fetch and `case.get("label", "")` are left out. The case label and navigator name are parameters of the save.
- The "Unclear" options of the annotation page are kept: the page offers values the generator's schema rejects (Schema.UnclearRejected). Nothing links them.
- The admin dashboard's password gate and its synthetic-cases table are left out, because they are display only.
- `st.rerun()` is modelled as the end of the handler. The next script run is a separate call.
- GenerateSynthetic.EveryAcceptedCaseKept: states the files only; that such a run finishes follows from GenerationsFinishIff.
- GenerateSynthetic.OutputPathInjective: requires timestamps of one width, which the `%Y%m%d_%H%M%S` format gives. Two saves in the same second with the same index would overwrite each other, and the clock is a parameter.
- Auth.EmailSpaceOrDot: requires no whitespace at the outer ends of the name parts, because stripping would otherwise eat the separator.
- Auth.NamePinToEmail: the PIN is not checked in `auth.py`; its format is checked by the login page (Login.RegisterDecision).
- GenerateBatch25.RateLimitedLastAttemptUncounted and GenerateBatch25.GenerateIsRateLimit state the code's behaviour as written: the counters can miss cases, and the substring test matches "generate". No corrected variant is modelled.
- The "Submit Evaluation" block (app/pages/annotation.py:307-322) is not modelled: its body is mis-indented at line 312, so as written the module raises `IndentationError` on import, and `streamlit_app.py:18` imports it, so the entry script does not start. The second save, the completion mark with its time, and the return to the dashboard are therefore absent; the pages the model describes (StreamlitApp.Render, Login, PnDashboard, Annotation, AdminDashboard) are their code apart from that block.
- The loop in `generate_synthetic.py` repeats the retrieval and prompt building on every pass. The model computes them once per run, because the query, taxonomies and targets do not change between passes and the oracles are functions.

