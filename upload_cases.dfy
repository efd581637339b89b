/** Loading the generated batch into the `synthetic_cases` table
    (upload_cases.py): the credentials read from the environment, the
    sorted list of case files and one labelled row per file, all sent in a
    single insert. */
module UploadCases {
  import opened PyValues

  const SyntheticDir: string := "./data/synthetic_batch_25"
  const BatchId: string := "synthetic_batch_25"

  /** The URL and key handed to `create_client`. The fallback
      `os.environ["SUPABASE_KEY"]` is evaluated before `.get` runs, so it
      must be present even when the service-role key is set. */
  function Credentials(env: map<string, string>): (r: Result<(string, string)>)
    ensures r.Ok? <==> "SUPABASE_URL" in env && "SUPABASE_KEY" in env
    ensures r.Ok? ==> r.value.0 == env["SUPABASE_URL"]
    ensures r.Ok? && "SUPABASE_SERVICE_ROLE_KEY" in env ==> r.value.1 == env["SUPABASE_SERVICE_ROLE_KEY"]
    ensures r.Ok? && "SUPABASE_SERVICE_ROLE_KEY" !in env ==> r.value.1 == env["SUPABASE_KEY"]
  {
    if "SUPABASE_URL" !in env then Err("KeyError: 'SUPABASE_URL'")
    else if "SUPABASE_KEY" !in env then Err("KeyError: 'SUPABASE_KEY'")
    else Ok((env["SUPABASE_URL"], MapGet(env, "SUPABASE_SERVICE_ROLE_KEY", env["SUPABASE_KEY"])))
  }

  /** The `.json` names of the listing in sorted order. */
  function UploadFiles(listing: seq<string>): seq<string> {
    SortStrs(WithSuffix(listing, ".json"))
  }

  /** Exactly the `.json` files are uploaded, each once, in sorted order. */
  lemma UploadFilesSorted(listing: seq<string>)
    ensures SortedStrs(UploadFiles(listing))
    ensures multiset(UploadFiles(listing)) == multiset(WithSuffix(listing, ".json"))
    ensures forall f :: f in UploadFiles(listing) <==> f in listing && EndsWith(f, ".json")
  {
    var files := WithSuffix(listing, ".json");
    SortStrsSorted(files);
    forall f
      ensures f in UploadFiles(listing) <==> f in files
    {
      assert f in UploadFiles(listing) <==> f in multiset(UploadFiles(listing));
      assert f in files <==> f in multiset(files);
    }
  }

  /** The upload order depends only on which names are listed, not on the
      order `os.listdir` returns them in. */
  lemma UploadOrderIndependent(listing: seq<string>, other: seq<string>)
    requires multiset(WithSuffix(listing, ".json")) == multiset(WithSuffix(other, ".json"))
    ensures UploadFiles(listing) == UploadFiles(other)
  {
    SortStrsSorted(WithSuffix(listing, ".json"));
    SortStrsSorted(WithSuffix(other, ".json"));
    SortedUnique(UploadFiles(listing), UploadFiles(other));
  }

  function CasePath(filename: string): string {
    SyntheticDir + "/" + filename
  }

  /** One row of `synthetic_cases`. */
  datatype Row = Row(batchId: string, caseLabel: string, narrativeSummary: Json,
                     stateLog: Json, triples: Json, rlScenario: Json)

  /** `f"Case_{idx}"`. */
  function CaseLabel(idx: nat): string {
    "Case_" + NatToString(idx)
  }

  lemma CaseLabelInjective(i: nat, j: nat)
    requires i != j
    ensures CaseLabel(i) != CaseLabel(j)
  {
    NatToStringInjective(i, j);
    assert CaseLabel(i)[5..] == NatToString(i) && CaseLabel(j)[5..] == NatToString(j);
  }

  /** The row for file number `idx`: the four fields copied, a missing
      summary read as "" and a missing format as []. A document that is not
      a dict has no `.get`. */
  function RowOf(idx: nat, data: Json): (r: Result<Row>)
    ensures r.Ok? <==> data.JObj?
    ensures r.Ok? ==> r.value.batchId == BatchId && r.value.caseLabel == CaseLabel(idx)
    ensures r.Ok? ==> r.value.narrativeSummary == MapOr(data.fields, "narrative_summary", JStr(""))
    ensures r.Ok? ==> r.value.stateLog == MapOr(data.fields, "format_1_state_log", JArr([]))
    ensures r.Ok? ==> r.value.triples == MapOr(data.fields, "format_2_triples", JArr([]))
    ensures r.Ok? ==> r.value.rlScenario == MapOr(data.fields, "format_3_rl_scenario", JArr([]))
  {
    if !data.JObj? then Err(Get(data, "narrative_summary", JStr("")).msg)
    else
      Ok(Row(BatchId, CaseLabel(idx),
             Get(data, "narrative_summary", JStr("")).value,
             Get(data, "format_1_state_log", JArr([])).value,
             Get(data, "format_2_triples", JArr([])).value,
             Get(data, "format_3_rl_scenario", JArr([])).value))
  }

  /** The value under `key`, or `default` when it is absent. */
  function MapOr(fields: seq<(string, Json)>, key: string, default: Json): Json {
    match Lookup(fields, key)
    case Some(v) => v
    case None => default
  }

  /** The k-th file (from 0) loaded and turned into row number k + 1. */
  function RowAt(files: seq<string>, load: string -> Result<Json>, k: nat): Result<Row>
    requires k < |files|
  {
    match load(CasePath(files[k]))
    case Err(e) => Err(e)
    case Ok(data) => RowOf(k + 1, data)
  }

  function Rows(files: seq<string>, load: string -> Result<Json>): seq<Result<Row>> {
    seq(|files|, k requires 0 <= k < |files| => RowAt(files, load, k))
  }

  /** The rows passed to the one `insert` call, or the exception that
      stopped the script before it. */
  datatype Insertion = Inserted(rows: seq<Row>) | Failed(error: string)

  /** `main` with the environment, the directory listing and the file
      loader given. */
  function Upload(env: map<string, string>, listing: seq<string>, load: string -> Result<Json>): (r: Insertion)
    ensures Credentials(env).Err? ==> r.Failed?
    ensures r.Inserted? ==> |r.rows| == |UploadFiles(listing)|
  {
    match Credentials(env)
    case Err(e) => Failed(e)
    case Ok(_) =>
      match Collect(Rows(UploadFiles(listing), load))
      case Err(e) => Failed(e)
      case Ok(rows) => Inserted(rows)
  }

  /** One row per file, in file order: row k (from 0) is labelled
      "Case_<k+1>", carries the batch id and is built from the k-th file. */
  lemma UploadRows(env: map<string, string>, listing: seq<string>, load: string -> Result<Json>)
    requires Upload(env, listing, load).Inserted?
    ensures var files := UploadFiles(listing);
      var rows := Upload(env, listing, load).rows;
      && |rows| == |files|
      && forall k :: 0 <= k < |files| ==>
           && load(CasePath(files[k])).Ok?
           && RowOf(k + 1, load(CasePath(files[k])).value) == Ok(rows[k])
           && rows[k].caseLabel == CaseLabel(k + 1)
           && rows[k].batchId == BatchId
  {
    var files := UploadFiles(listing);
    var rs := Rows(files, load);
    var rows := Collect(rs).value;
    forall k | 0 <= k < |files|
      ensures load(CasePath(files[k])).Ok? && RowOf(k + 1, load(CasePath(files[k])).value) == Ok(rows[k])
    {
      assert rs[k] == Ok(rows[k]);
    }
  }

  /** No two rows of an upload share a label. */
  lemma LabelsDistinct(env: map<string, string>, listing: seq<string>, load: string -> Result<Json>)
    requires Upload(env, listing, load).Inserted?
    ensures var rows := Upload(env, listing, load).rows;
      forall i, j :: 0 <= i < j < |rows| ==> rows[i].caseLabel != rows[j].caseLabel
  {
    UploadRows(env, listing, load);
    NumberedLabelsDistinct(Upload(env, listing, load).rows);
  }

  lemma NumberedLabelsDistinct(rows: seq<Row>)
    requires forall k :: 0 <= k < |rows| ==> rows[k].caseLabel == CaseLabel(k + 1)
    ensures forall i, j :: 0 <= i < j < |rows| ==> rows[i].caseLabel != rows[j].caseLabel
  {
    forall i, j | 0 <= i < j < |rows|
      ensures rows[i].caseLabel != rows[j].caseLabel
    {
      CaseLabelInjective(i + 1, j + 1);
    }
  }

  /** Nothing is inserted unless every file loads as a dict and both
      credentials are present. */
  lemma UploadFailsIff(env: map<string, string>, listing: seq<string>, load: string -> Result<Json>)
    ensures Upload(env, listing, load).Failed?
        <==> Credentials(env).Err?
             || exists k :: 0 <= k < |UploadFiles(listing)| && RowAt(UploadFiles(listing), load, k).Err?
  {
    var files := UploadFiles(listing);
    var rs := Rows(files, load);
    assert forall k :: 0 <= k < |files| ==> rs[k] == RowAt(files, load, k);
  }

  /** `main`: the `enumerate(files, start=1)` loop appending to `rows`,
      then the single insert. */
  method UploadCasesMain(env: map<string, string>, listing: seq<string>, load: string -> Result<Json>)
    returns (r: Insertion)
    ensures r == Upload(env, listing, load)
  {
    var credentials := Credentials(env);
    if credentials.Err? {
      return Failed(credentials.msg);
    }
    var files := UploadFiles(listing);
    ghost var rs := Rows(files, load);
    var rows: seq<Row> := [];
    var idx := 1;
    assert rs[..0] == [];
    while idx <= |files|
      invariant 1 <= idx <= |files| + 1
      invariant Collect(rs[..idx - 1]) == Ok(rows)
    {
      var data := load(CasePath(files[idx - 1]));
      if data.Err? {
        CollectFirstErr(rs, idx - 1, rows);
        return Failed(data.msg);
      }
      var row := RowOf(idx, data.value);
      assert row == rs[idx - 1];
      if row.Err? {
        CollectFirstErr(rs, idx - 1, rows);
        return Failed(row.msg);
      }
      CollectSnoc(rs, idx - 1, rows);
      rows := rows + [row.value];
      idx := idx + 1;
    }
    assert rs[..|files|] == rs;
    r := Inserted(rows);
  }
}
