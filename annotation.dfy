/** The evaluation page (app/pages/annotation.py): the retry wrapper around
    database calls, the answers saved for a session keyed by position, the
    defaults the form widgets start from, the three per-item input lists and
    the rows written back when the page saves. */
module Annotation {
  import opened PyValues
  import opened Auth

  /** A database row, or an input entry: a dict of column values. */
  type Row = map<string, Json>

  // ---------------------------------------------------------------------
  // _retry

  /** What one call of the wrapped function does. */
  datatype Attempt = Returned(value: Json) | ProtocolError(error: string) | OtherError(error: string)

  /** What `_retry` ends with: the first returned value, the exception it
      lets through, or `None` when `retries` leaves no attempt at all. */
  datatype Retried = Value(value: Json) | Raised(error: string) | NoAttempts

  /** `_retry` from attempt `attempt` on: the outcome and how many calls were
      made in all. */
  function Retry(call: nat -> Attempt, retries: int, attempt: nat): (r: (Retried, nat))
    ensures retries <= attempt ==> r == (NoAttempts, attempt)
    ensures retries > attempt ==> attempt < r.1 <= retries && !r.0.NoAttempts?
    decreases retries - attempt
  {
    if retries <= attempt then (NoAttempts, attempt)
    else
      match call(attempt)
      case Returned(v) => (Value(v), attempt + 1)
      case OtherError(e) => (Raised(e), attempt + 1)
      case ProtocolError(e) =>
        if attempt == retries - 1 then (Raised(e), attempt + 1)
        else Retry(call, retries, attempt + 1)
  }

  /** At most `retries` calls; a value is the first one returned, after
      nothing but stale-connection errors; a stale-connection error escapes
      only from the last attempt; and `None` comes back only when no attempt
      is allowed. */
  lemma {:induction false} RetryOutcome(call: nat -> Attempt, retries: int, attempt: nat)
    requires attempt == 0 || attempt < retries
    ensures var (r, calls) := Retry(call, retries, attempt);
      && (r.NoAttempts? <==> retries <= attempt)
      && (!r.NoAttempts? ==> attempt < calls <= retries)
      && (forall j :: attempt <= j < calls - 1 ==> call(j).ProtocolError?)
      && (r.Value? ==> call(calls - 1) == Returned(r.value))
      && (r.Raised? ==> (call(calls - 1) == OtherError(r.error)
                         || (call(calls - 1) == ProtocolError(r.error) && calls == retries)))
    decreases retries - attempt
  {
    if attempt < retries && call(attempt).ProtocolError? && attempt != retries - 1 {
      RetryOutcome(call, retries, attempt + 1);
    }
  }

  /** `_retry(fn, retries)`: the attempt loop; the cache clearing between
      attempts is not recorded. */
  method RetryCall(call: nat -> Attempt, retries: int) returns (r: Retried, calls: nat)
    ensures (r, calls) == Retry(call, retries, 0)
  {
    var attempt: nat := 0;
    while attempt < retries
      invariant Retry(call, retries, attempt) == Retry(call, retries, 0)
      decreases retries - attempt
    {
      var outcome := call(attempt);
      match outcome {
        case Returned(v) =>
          return Value(v), attempt + 1;
        case OtherError(e) =>
          return Raised(e), attempt + 1;
        case ProtocolError(e) =>
          if attempt == retries - 1 {
            return Raised(e), attempt + 1;
          }
      }
      attempt := attempt + 1;
    }
    r, calls := NoAttempts, attempt;
  }

  // ---------------------------------------------------------------------
  // Options and defaults

  const ClinicalEnvOptions: seq<string> := ["Improves", "Worsens", "Unchanged", "Unclear"]
  const ServiceAdoptionOptions: seq<string> := ["Negative", "Positive", "Unclear", "Unchanged"]
  const EddDeltaOptions: seq<string> := [
    "+ >14 Days", "+ 7-14 Days", "+ 3-6 Days", "+ 0-2 Days",
    "- 0-2 Days", "- 3-6 Days", "- 7-14 Days", "- >14 Days"]
  const CategoryOptions: seq<string> := ["Passive", "Proactive", "Overstep"]
  const BottleneckOptions: seq<string> := ["True", "False"]

  /** `options.index(x)`: the first position holding `x`. */
  function IndexOf(options: seq<string>, x: string): (i: nat)
    requires x in options
    ensures i < |options| && options[i] == x
    ensures forall j :: 0 <= j < i ==> options[j] != x
  {
    if options[0] == x then 0
    else
      assert x in options[1..];
      1 + IndexOf(options[1..], x)
  }

  /** The index a selectbox starts at: that of the saved value when it is
      one of the options, 0 otherwise. */
  function DefaultIndex(options: seq<string>, saved: Json): (i: nat)
    requires options != []
    ensures i < |options|
    ensures saved.JStr? && saved.s in options ==> options[i] == saved.s
    ensures !(saved.JStr? && saved.s in options) ==> i == 0
  {
    if saved.JStr? && saved.s in options then IndexOf(options, saved.s) else 0
  }

  /** The value of a selectbox: what the user picked when that is one of
      the options, the option at `default` otherwise. */
  function SelectBox(options: seq<string>, default: nat, user: Option<Json>): (v: string)
    requires default < |options|
    ensures v in options
    ensures user.Some? && user.value.JStr? && user.value.s in options ==> v == user.value.s
    ensures !(user.Some? && user.value.JStr? && user.value.s in options) ==> v == options[default]
  {
    if user.Some? && user.value.JStr? && user.value.s in options then user.value.s else options[default]
  }

  /** The value of a slider: the user's number, or the starting value. */
  function Slider(default: int, user: Option<Json>): (v: int)
    ensures user.Some? && user.value.JInt? ==> v == user.value.i
    ensures !(user.Some? && user.value.JInt?) ==> v == default
  {
    if user.Some? && user.value.JInt? then user.value.i else default
  }

  /** `saved.get(key)`, None when absent. */
  function Saved(saved: Row, key: string): Json {
    MapGet(saved, key, JNull)
  }

  /** The "Bottleneck Realistic?" radio starts at "True" unless the saved
      value is present and falsy. */
  function BottleneckDefault(saved: Row): (i: nat)
    ensures i < |BottleneckOptions|
    ensures i == 1 <==> "bottleneck_realism" in saved && !Truthy(saved["bottleneck_realism"])
  {
    if Truthy(MapGet(saved, "bottleneck_realism", JBool(true))) then 0 else 1
  }

  /** `int(v)` raising: ValueError for an unreadable string, TypeError for
      anything else. */
  function IntError(v: Json): string {
    if v.JStr? then "ValueError: invalid literal for int() with base 10: " + QuoteStr(v.s)
    else "TypeError: int() argument must be a string, a bytes-like object or a real number, not '" + TypeName(v) + "'"
  }

  /** The starting viability score: the saved one, 3 when none is saved. */
  function ScoreDefault(saved: Row): (r: Result<int>)
    ensures "tactical_viability_score" !in saved ==> r == Ok(3)
    ensures "tactical_viability_score" in saved && saved["tactical_viability_score"].JInt?
            ==> r == Ok(saved["tactical_viability_score"].i)
  {
    var v := MapGet(saved, "tactical_viability_score", JInt(3));
    match IntOf(v)
    case Some(i) => Ok(i)
    case None => Err(IntError(v))
  }

  /** The starting authenticity score: the saved one, 3 when it is missing
      or falsy (so a saved 0 also reads as 3). */
  function AuthenticityDefault(session: Row): (r: Result<int>)
    ensures !Truthy(Saved(session, "overall_field_authenticity")) ==> r == Ok(3)
    ensures Saved(session, "overall_field_authenticity").JInt? && Saved(session, "overall_field_authenticity").i != 0
            ==> r == Ok(session["overall_field_authenticity"].i)
  {
    var saved := Saved(session, "overall_field_authenticity");
    var v := if Truthy(saved) then saved else JInt(3);
    match IntOf(v)
    case Some(i) => Ok(i)
    case None => Err(IntError(v))
  }

  // ---------------------------------------------------------------------
  // The per-item input lists

  /** What the user has set for a widget key, if anything. */
  type Widgets = string -> Option<Json>

  function WidgetKey(prefix: string, i: nat): string {
    prefix + NatToString(i)
  }

  /** `fN_saved.get(i, {})`. */
  function SavedAt(saved: map<Json, Row>, i: nat): Row {
    MapGet(saved, JInt(i), map[])
  }

  /** The selectbox for one answer: it starts at the saved value when that
      is an option, and shows what the user picked, if anything. */
  function Choice(options: seq<string>, saved: Json, user: Option<Json>): (v: string)
    requires options != []
    ensures v in options
  {
    SelectBox(options, DefaultIndex(options, saved), user)
  }

  /** The entry appended for one state-log event. */
  datatype Format1Input = Format1Input(eventIndex: nat, clinicalImpact: string, environmentalImpact: string,
                                       homeServiceAdoptionImpact: string, eddDelta: string, bottleneckRealism: bool)

  /** The entry appended for one reasoning triple. */
  datatype Format2Input = Format2Input(tripleIndex: nat, tacticalViabilityScore: int)

  /** The entry appended for one RL option. */
  datatype Format3Input = Format3Input(optionIndex: nat, pnCategory: string, aiIntendedCategory: Json)

  /** The entries as the dicts the page builds. */
  function Format1Row(e: Format1Input): Row {
    map["event_index" := JInt(e.eventIndex),
        "clinical_impact" := JStr(e.clinicalImpact),
        "environmental_impact" := JStr(e.environmentalImpact),
        "home_service_adoption_impact" := JStr(e.homeServiceAdoptionImpact),
        "edd_delta" := JStr(e.eddDelta),
        "bottleneck_realism" := JBool(e.bottleneckRealism)]
  }

  function Format2Row(e: Format2Input): Row {
    map["triple_index" := JInt(e.tripleIndex), "tactical_viability_score" := JInt(e.tacticalViabilityScore)]
  }

  function Format3Row(e: Format3Input): Row {
    map["option_index" := JInt(e.optionIndex), "pn_category" := JStr(e.pnCategory),
        "ai_intended_category" := e.aiIntendedCategory]
  }

  function Format1Rows(es: seq<Format1Input>): seq<Row> {
    seq(|es|, k requires 0 <= k < |es| => Format1Row(es[k]))
  }

  function Format2Rows(es: seq<Format2Input>): seq<Row> {
    seq(|es|, k requires 0 <= k < |es| => Format2Row(es[k]))
  }

  function Format3Rows(es: seq<Format3Input>): seq<Row> {
    seq(|es|, k requires 0 <= k < |es| => Format3Row(es[k]))
  }

  /** The entry for state-log event `i`: its position and four answers from
      the offered options. */
  function Format1Entry(i: nat, saved: Row, widgets: Widgets): (e: Format1Input)
    ensures e.eventIndex == i
    ensures e.clinicalImpact in ClinicalEnvOptions && e.environmentalImpact in ClinicalEnvOptions
    ensures e.homeServiceAdoptionImpact in ServiceAdoptionOptions && e.eddDelta in EddDeltaOptions
  {
    Format1Input(i,
      Choice(ClinicalEnvOptions, Saved(saved, "clinical_impact"), widgets(WidgetKey("f1_clinical_", i))),
      Choice(ClinicalEnvOptions, Saved(saved, "environmental_impact"), widgets(WidgetKey("f1_env_", i))),
      Choice(ServiceAdoptionOptions, Saved(saved, "home_service_adoption_impact"), widgets(WidgetKey("f1_service_", i))),
      Choice(EddDeltaOptions, Saved(saved, "edd_delta"), widgets(WidgetKey("f1_edd_", i))),
      SelectBox(BottleneckOptions, BottleneckDefault(saved), widgets(WidgetKey("f1_bottleneck_", i))) == "True")
  }

  /** The entry for reasoning triple `i`; `int()` of the saved score may
      raise. */
  function Format2Entry(i: nat, saved: Row, widgets: Widgets): (r: Result<Format2Input>)
    ensures r.Ok? <==> ScoreDefault(saved).Ok?
    ensures r.Ok? ==> r.value.tripleIndex == i
  {
    match ScoreDefault(saved)
    case Err(e) => Err(e)
    case Ok(d) => Ok(Format2Input(i, Slider(d, widgets(WidgetKey("f2_score_", i)))))
  }

  /** The entry for RL option `i`; an option that is not a dict has no
      `.get`. */
  function Format3Entry(i: nat, option: Json, saved: Row, widgets: Widgets): (r: Result<Format3Input>)
    ensures r.Ok? <==> option.JObj?
    ensures r.Ok? ==> r.value.optionIndex == i && r.value.pnCategory in CategoryOptions
    ensures r.Ok? ==> r.value.aiIntendedCategory == Get(option, "ai_intended_category", JStr("")).value
  {
    match Get(option, "ai_intended_category", JStr(""))
    case Err(e) => Err(e)
    case Ok(intended) =>
      Ok(Format3Input(i, Choice(CategoryOptions, Saved(saved, "pn_category"), widgets(WidgetKey("f3_cat_", i))), intended))
  }

  function Format1Inputs(stateLog: seq<Json>, saved: map<Json, Row>, widgets: Widgets): seq<Format1Input> {
    seq(|stateLog|, i requires 0 <= i < |stateLog| => Format1Entry(i, SavedAt(saved, i), widgets))
  }

  function Format2Results(triples: seq<Json>, saved: map<Json, Row>, widgets: Widgets): seq<Result<Format2Input>> {
    seq(|triples|, i requires 0 <= i < |triples| => Format2Entry(i, SavedAt(saved, i), widgets))
  }

  function Format3Results(options: seq<Json>, saved: map<Json, Row>, widgets: Widgets): seq<Result<Format3Input>> {
    seq(|options|, i requires 0 <= i < |options| => Format3Entry(i, options[i], SavedAt(saved, i), widgets))
  }

  /** The f1 loop: one entry per event, in order. */
  method BuildFormat1Inputs(stateLog: seq<Json>, saved: map<Json, Row>, widgets: Widgets) returns (inputs: seq<Format1Input>)
    ensures inputs == Format1Inputs(stateLog, saved, widgets)
  {
    ghost var all := Format1Inputs(stateLog, saved, widgets);
    inputs := [];
    var i := 0;
    while i < |stateLog|
      invariant 0 <= i <= |stateLog|
      invariant inputs == all[..i]
    {
      assert all[..i + 1] == all[..i] + [all[i]];
      inputs := inputs + [Format1Entry(i, SavedAt(saved, i), widgets)];
      i := i + 1;
    }
    assert all[..i] == all;
  }

  /** The f2 loop: one entry per triple, in order, or the first error. */
  method BuildFormat2Inputs(triples: seq<Json>, saved: map<Json, Row>, widgets: Widgets) returns (r: Result<seq<Format2Input>>)
    ensures r == Collect(Format2Results(triples, saved, widgets))
  {
    ghost var rs := Format2Results(triples, saved, widgets);
    var inputs: seq<Format2Input> := [];
    var i := 0;
    assert rs[..0] == [];
    while i < |triples|
      invariant 0 <= i <= |triples|
      invariant Collect(rs[..i]) == Ok(inputs)
    {
      var entry := Format2Entry(i, SavedAt(saved, i), widgets);
      assert entry == rs[i];
      if entry.Err? {
        CollectFirstErr(rs, i, inputs);
        return Err(entry.msg);
      }
      CollectSnoc(rs, i, inputs);
      inputs := inputs + [entry.value];
      i := i + 1;
    }
    assert rs[..i] == rs;
    r := Ok(inputs);
  }

  /** The f3 loop: one entry per option, in order, or the first error. */
  method BuildFormat3Inputs(options: seq<Json>, saved: map<Json, Row>, widgets: Widgets) returns (r: Result<seq<Format3Input>>)
    ensures r == Collect(Format3Results(options, saved, widgets))
  {
    ghost var rs := Format3Results(options, saved, widgets);
    var inputs: seq<Format3Input> := [];
    var i := 0;
    assert rs[..0] == [];
    while i < |options|
      invariant 0 <= i <= |options|
      invariant Collect(rs[..i]) == Ok(inputs)
    {
      var entry := Format3Entry(i, options[i], SavedAt(saved, i), widgets);
      assert entry == rs[i];
      if entry.Err? {
        CollectFirstErr(rs, i, inputs);
        return Err(entry.msg);
      }
      CollectSnoc(rs, i, inputs);
      inputs := inputs + [entry.value];
      i := i + 1;
    }
    assert rs[..i] == rs;
    r := Ok(inputs);
  }

  /** One input per item, carrying its position; the f2 list fails exactly
      when some saved score cannot be read, the f3 list exactly when some
      option is not a dict. */
  lemma InputsIndexed(stateLog: seq<Json>, triples: seq<Json>, options: seq<Json>,
                      saved1: map<Json, Row>, saved2: map<Json, Row>, saved3: map<Json, Row>, widgets: Widgets)
    ensures var f1 := Format1Inputs(stateLog, saved1, widgets);
      |f1| == |stateLog| && forall i :: 0 <= i < |f1| ==> f1[i].eventIndex == i
    ensures var f2 := Collect(Format2Results(triples, saved2, widgets));
      && (f2.Ok? <==> forall i :: 0 <= i < |triples| ==> ScoreDefault(SavedAt(saved2, i)).Ok?)
      && (f2.Ok? ==> |f2.value| == |triples| && forall i :: 0 <= i < |triples| ==> f2.value[i].tripleIndex == i)
    ensures var f3 := Collect(Format3Results(options, saved3, widgets));
      && (f3.Ok? <==> forall i :: 0 <= i < |options| ==> options[i].JObj?)
      && (f3.Ok? ==> |f3.value| == |options| && forall i :: 0 <= i < |options| ==> f3.value[i].optionIndex == i)
  {
    var r2 := Format2Results(triples, saved2, widgets);
    assert forall i :: 0 <= i < |triples| ==> r2[i] == Format2Entry(i, SavedAt(saved2, i), widgets);
    var r3 := Format3Results(options, saved3, widgets);
    assert forall i :: 0 <= i < |options| ==> r3[i] == Format3Entry(i, options[i], SavedAt(saved3, i), widgets);
  }

  // ---------------------------------------------------------------------
  // _save_answers

  const Format1Table: string := "eval_format_1_timeline"
  const Format2Table: string := "eval_format_2_tactics"
  const Format3Table: string := "eval_format_3_boundaries"

  /** A write to the database. */
  datatype DbOp = DeleteSession(table: string, sessionId: Json) | InsertRows(table: string, rows: seq<Row>)

  function Common(sessionId: Json, caseLabel: string, navigatorName: string): Row {
    map["session_id" := sessionId, "case_label" := JStr(caseLabel), "navigator_name" := JStr(navigatorName)]
  }

  /** `[{**common, **inp} for inp in inputs]`: the input's keys win. */
  function Merged(common: Row, inputs: seq<Row>): (rows: seq<Row>)
    ensures |rows| == |inputs|
    ensures forall k :: 0 <= k < |inputs| ==> rows[k].Keys == common.Keys + inputs[k].Keys
    ensures forall k, key :: 0 <= k < |inputs| && key in inputs[k] ==> rows[k][key] == inputs[k][key]
    ensures forall k, key :: 0 <= k < |inputs| && key in common && key !in inputs[k] ==> rows[k][key] == common[key]
  {
    seq(|inputs|, k requires 0 <= k < |inputs| => common + inputs[k])
  }

  function InsertIfAny(table: string, common: Row, inputs: seq<Row>): seq<DbOp> {
    if inputs == [] then [] else [InsertRows(table, Merged(common, inputs))]
  }

  /** `_save_answers`: the session's rows are deleted from all three tables,
      then each non-empty input list is inserted, merged with the common
      columns. */
  function SaveAnswers(sessionId: Json, f1: seq<Row>, f2: seq<Row>, f3: seq<Row>,
                       caseLabel: string, navigatorName: string): (ops: seq<DbOp>)
    ensures |ops| >= 3
    ensures ops[..3] == [DeleteSession(Format1Table, sessionId), DeleteSession(Format2Table, sessionId),
                         DeleteSession(Format3Table, sessionId)]
    ensures |ops| == 3 + (if f1 == [] then 0 else 1) + (if f2 == [] then 0 else 1) + (if f3 == [] then 0 else 1)
    ensures forall k :: 3 <= k < |ops| ==> ops[k].InsertRows? && ops[k].rows != []
  {
    var common := Common(sessionId, caseLabel, navigatorName);
    [DeleteSession(Format1Table, sessionId), DeleteSession(Format2Table, sessionId),
     DeleteSession(Format3Table, sessionId)]
    + InsertIfAny(Format1Table, common, f1)
    + InsertIfAny(Format2Table, common, f2)
    + InsertIfAny(Format3Table, common, f3)
  }

  /** The rows inserted into a table are exactly that format's inputs, each
      merged with the common columns; an empty list inserts nothing. */
  lemma SaveInsertsEachFormat(sessionId: Json, f1: seq<Row>, f2: seq<Row>, f3: seq<Row>,
                              caseLabel: string, navigatorName: string)
    ensures var ops := SaveAnswers(sessionId, f1, f2, f3, caseLabel, navigatorName);
      var common := Common(sessionId, caseLabel, navigatorName);
      && (InsertRows(Format1Table, Merged(common, f1)) in ops <==> f1 != [])
      && (InsertRows(Format2Table, Merged(common, f2)) in ops <==> f2 != [])
      && (InsertRows(Format3Table, Merged(common, f3)) in ops <==> f3 != [])
      && (forall op :: op in ops && op.InsertRows? ==>
            || (op.table == Format1Table && op.rows == Merged(common, f1))
            || (op.table == Format2Table && op.rows == Merged(common, f2))
            || (op.table == Format3Table && op.rows == Merged(common, f3)))
  {
    var common := Common(sessionId, caseLabel, navigatorName);
    var ops := SaveAnswers(sessionId, f1, f2, f3, caseLabel, navigatorName);
    assert ops == [DeleteSession(Format1Table, sessionId), DeleteSession(Format2Table, sessionId),
                   DeleteSession(Format3Table, sessionId)]
      + InsertIfAny(Format1Table, common, f1) + InsertIfAny(Format2Table, common, f2)
      + InsertIfAny(Format3Table, common, f3);
  }

  // ---------------------------------------------------------------------
  // The eval tables a save writes to

  /** The eval tables' rows, by table name; a table not in the map is empty. */
  type Tables = map<string, seq<Row>>

  function TableRows(db: Tables, table: string): seq<Row> {
    MapGet(db, table, [])
  }

  /** A row that `.eq("session_id", sessionId)` matches. */
  predicate OfSession(row: Row, sessionId: Json) {
    "session_id" in row && row["session_id"] == sessionId
  }

  /** The rows that do (`mine`) or do not belong to the session, in order. */
  function Filter(rows: seq<Row>, sessionId: Json, mine: bool): seq<Row> {
    if rows == [] then []
    else (if OfSession(rows[0], sessionId) == mine then [rows[0]] else []) + Filter(rows[1..], sessionId, mine)
  }

  /** The rows kept are those of `rows` on the chosen side. */
  lemma {:induction false} FilterKeeps(rows: seq<Row>, sessionId: Json, mine: bool)
    ensures forall row :: row in Filter(rows, sessionId, mine) <==> row in rows && OfSession(row, sessionId) == mine
    decreases |rows|
  {
    if rows != [] {
      FilterKeeps(rows[1..], sessionId, mine);
      assert forall row :: row in rows <==> row == rows[0] || row in rows[1..];
    }
  }

  /** One write: a delete keeps the other sessions' rows, an insert
      appends. */
  function Apply(db: Tables, op: DbOp): Tables {
    match op
    case DeleteSession(table, sessionId) => db[table := Filter(TableRows(db, table), sessionId, false)]
    case InsertRows(table, rows) => db[table := TableRows(db, table) + rows]
  }

  function ApplyAll(db: Tables, ops: seq<DbOp>): Tables
    decreases |ops|
  {
    if ops == [] then db else ApplyAll(Apply(db, ops[0]), ops[1..])
  }

  lemma {:induction false} ApplyAllConcat(db: Tables, a: seq<DbOp>, b: seq<DbOp>)
    ensures ApplyAll(db, a + b) == ApplyAll(ApplyAll(db, a), b)
    decreases |a|
  {
    if a != [] {
      assert (a + b)[0] == a[0] && (a + b)[1..] == a[1..] + b;
      ApplyAllConcat(Apply(db, a[0]), a[1..], b);
    } else {
      assert a + b == b;
    }
  }

  lemma InsertIfAnyEffect(db: Tables, table: string, common: Row, inputs: seq<Row>, t: string)
    ensures TableRows(ApplyAll(db, InsertIfAny(table, common, inputs)), t)
            == if t == table then TableRows(db, table) + Merged(common, inputs) else TableRows(db, t)
  {
    if inputs != [] {
      var op := InsertRows(table, Merged(common, inputs));
      assert ApplyAll(db, [op]) == ApplyAll(Apply(db, op), []);
    } else {
      assert TableRows(db, table) + Merged(common, inputs) == TableRows(db, table);
    }
  }

  /** The three deletes keep only the other sessions' rows of each eval
      table. */
  lemma DeletesEffect(db: Tables, sessionId: Json, t: string)
    ensures var d := ApplyAll(db, [DeleteSession(Format1Table, sessionId), DeleteSession(Format2Table, sessionId),
                                   DeleteSession(Format3Table, sessionId)]);
      TableRows(d, t) == if t in {Format1Table, Format2Table, Format3Table}
                         then Filter(TableRows(db, t), sessionId, false) else TableRows(db, t)
  {
    var deletes := [DeleteSession(Format1Table, sessionId), DeleteSession(Format2Table, sessionId),
                    DeleteSession(Format3Table, sessionId)];
    var e1 := Apply(db, deletes[0]);
    var e2 := Apply(e1, deletes[1]);
    var e3 := Apply(e2, deletes[2]);
    assert ApplyAll(db, deletes) == ApplyAll(e1, deletes[1..]);
    assert ApplyAll(e1, deletes[1..]) == ApplyAll(e2, deletes[2..]);
    assert ApplyAll(e2, deletes[2..]) == ApplyAll(e3, []);
  }

  /** What `_save_answers` leaves in each table: the other sessions' rows
      as they were, then this session's merged inputs; no other table
      changes. */
  lemma SaveReplacesSessionRows(db: Tables, sessionId: Json, f1: seq<Row>, f2: seq<Row>, f3: seq<Row>,
                                caseLabel: string, navigatorName: string, t: string)
    ensures var after := ApplyAll(db, SaveAnswers(sessionId, f1, f2, f3, caseLabel, navigatorName));
      var common := Common(sessionId, caseLabel, navigatorName);
      && (t == Format1Table ==> TableRows(after, t) == Filter(TableRows(db, t), sessionId, false) + Merged(common, f1))
      && (t == Format2Table ==> TableRows(after, t) == Filter(TableRows(db, t), sessionId, false) + Merged(common, f2))
      && (t == Format3Table ==> TableRows(after, t) == Filter(TableRows(db, t), sessionId, false) + Merged(common, f3))
      && (t !in {Format1Table, Format2Table, Format3Table} ==> TableRows(after, t) == TableRows(db, t))
  {
    var common := Common(sessionId, caseLabel, navigatorName);
    var deletes := [DeleteSession(Format1Table, sessionId), DeleteSession(Format2Table, sessionId),
                    DeleteSession(Format3Table, sessionId)];
    var i1 := InsertIfAny(Format1Table, common, f1);
    var i2 := InsertIfAny(Format2Table, common, f2);
    var i3 := InsertIfAny(Format3Table, common, f3);
    assert SaveAnswers(sessionId, f1, f2, f3, caseLabel, navigatorName) == deletes + i1 + i2 + i3;
    var d0 := ApplyAll(db, deletes);
    DeletesEffect(db, sessionId, t);
    ApplyAllConcat(db, deletes, i1);
    ApplyAllConcat(db, deletes + i1, i2);
    ApplyAllConcat(db, deletes + i1 + i2, i3);
    var d1 := ApplyAll(d0, i1);
    var d2 := ApplyAll(d1, i2);
    InsertIfAnyEffect(d0, Format1Table, common, f1, t);
    InsertIfAnyEffect(d1, Format2Table, common, f2, t);
    InsertIfAnyEffect(d2, Format3Table, common, f3, t);
  }

  lemma {:induction false} FilterConcat(a: seq<Row>, b: seq<Row>, sessionId: Json, mine: bool)
    ensures Filter(a + b, sessionId, mine) == Filter(a, sessionId, mine) + Filter(b, sessionId, mine)
    decreases |a|
  {
    if a != [] {
      assert (a + b)[0] == a[0] && (a + b)[1..] == a[1..] + b;
      FilterConcat(a[1..], b, sessionId, mine);
    } else {
      assert a + b == b;
    }
  }

  /** Filtering rows that all agree with `mine` keeps them all; rows that
      all disagree are all dropped. */
  lemma {:induction false} FilterUniform(rows: seq<Row>, sessionId: Json, mine: bool, agree: bool)
    requires forall k :: 0 <= k < |rows| ==> (OfSession(rows[k], sessionId) == mine) == agree
    ensures Filter(rows, sessionId, mine) == if agree then rows else []
    decreases |rows|
  {
    if rows != [] {
      FilterUniform(rows[1..], sessionId, mine, agree);
    }
  }

  /** The merged rows belong to the session unless an input sets its own
      `session_id`. */
  lemma MergedOfSession(sessionId: Json, caseLabel: string, navigatorName: string, inputs: seq<Row>)
    requires forall k :: 0 <= k < |inputs| ==> "session_id" !in inputs[k]
    ensures var rows := Merged(Common(sessionId, caseLabel, navigatorName), inputs);
      forall k :: 0 <= k < |rows| ==> OfSession(rows[k], sessionId)
  {
  }

  /** Rows of other sessions followed by rows of this one split back into
      the two parts. */
  lemma SplitRows(kept: seq<Row>, merged: seq<Row>, sessionId: Json)
    requires forall row :: row in kept ==> !OfSession(row, sessionId)
    requires forall k :: 0 <= k < |merged| ==> OfSession(merged[k], sessionId)
    ensures Filter(kept + merged, sessionId, true) == merged
    ensures Filter(kept + merged, sessionId, false) == kept
  {
    assert forall k :: 0 <= k < |kept| ==> kept[k] in kept;
    FilterConcat(kept, merged, sessionId, true);
    FilterConcat(kept, merged, sessionId, false);
    FilterUniform(kept, sessionId, true, false);
    FilterUniform(kept, sessionId, false, true);
    FilterUniform(merged, sessionId, true, true);
    FilterUniform(merged, sessionId, false, false);
  }

  /** After a save, the session's rows in a table are exactly that format's
      merged inputs and every other session's rows are as before. */
  lemma SavedSessionRows(db: Tables, sessionId: Json, f1: seq<Row>, f2: seq<Row>, f3: seq<Row>,
                         caseLabel: string, navigatorName: string, t: string, f: seq<Row>)
    requires (t == Format1Table && f == f1) || (t == Format2Table && f == f2) || (t == Format3Table && f == f3)
    requires forall k :: 0 <= k < |f| ==> "session_id" !in f[k]
    ensures var rows := TableRows(ApplyAll(db, SaveAnswers(sessionId, f1, f2, f3, caseLabel, navigatorName)), t);
      && Filter(rows, sessionId, true) == Merged(Common(sessionId, caseLabel, navigatorName), f)
      && Filter(rows, sessionId, false) == Filter(TableRows(db, t), sessionId, false)
  {
    SaveReplacesSessionRows(db, sessionId, f1, f2, f3, caseLabel, navigatorName, t);
    MergedOfSession(sessionId, caseLabel, navigatorName, f);
    var kept := Filter(TableRows(db, t), sessionId, false);
    FilterKeeps(TableRows(db, t), sessionId, false);
    SplitRows(kept, Merged(Common(sessionId, caseLabel, navigatorName), f), sessionId);
  }

  /** Saving the same answers twice, as two reruns of the page with
      unchanged widgets do, leaves the tables as saving once. */
  lemma SaveIdempotent(db: Tables, sessionId: Json, f1: seq<Row>, f2: seq<Row>, f3: seq<Row>,
                       caseLabel: string, navigatorName: string, t: string)
    requires forall k :: 0 <= k < |f1| ==> "session_id" !in f1[k]
    requires forall k :: 0 <= k < |f2| ==> "session_id" !in f2[k]
    requires forall k :: 0 <= k < |f3| ==> "session_id" !in f3[k]
    ensures var save := SaveAnswers(sessionId, f1, f2, f3, caseLabel, navigatorName);
      TableRows(ApplyAll(ApplyAll(db, save), save), t) == TableRows(ApplyAll(db, save), t)
  {
    var save := SaveAnswers(sessionId, f1, f2, f3, caseLabel, navigatorName);
    var once := ApplyAll(db, save);
    SaveReplacesSessionRows(db, sessionId, f1, f2, f3, caseLabel, navigatorName, t);
    SaveReplacesSessionRows(once, sessionId, f1, f2, f3, caseLabel, navigatorName, t);
    if t in {Format1Table, Format2Table, Format3Table} {
      var f := if t == Format1Table then f1 else if t == Format2Table then f2 else f3;
      SavedSessionRows(db, sessionId, f1, f2, f3, caseLabel, navigatorName, t, f);
      var kept := Filter(TableRows(db, t), sessionId, false);
      var merged := Merged(Common(sessionId, caseLabel, navigatorName), f);
      assert TableRows(once, t) == kept + merged;
      assert TableRows(ApplyAll(once, save), t) == Filter(TableRows(once, t), sessionId, false) + merged;
    }
  }

  /** The page's entries never set `session_id`, so the save owns every
      row it inserts. */
  lemma EntriesCarryNoSession(e1: seq<Format1Input>, e2: seq<Format2Input>, e3: seq<Format3Input>)
    ensures forall k :: 0 <= k < |e1| ==> "session_id" !in Format1Rows(e1)[k]
    ensures forall k :: 0 <= k < |e2| ==> "session_id" !in Format2Rows(e2)[k]
    ensures forall k :: 0 <= k < |e3| ==> "session_id" !in Format3Rows(e3)[k]
  {
  }

  /** The auto-save's update of the session row: the overall score and
      nothing else, so no render marks the session completed. */
  function SessionColumns(score: int): (r: Row)
    ensures "overall_field_authenticity" in r && r["overall_field_authenticity"] == JInt(score)
    ensures forall k :: k in r ==> k == "overall_field_authenticity"
    ensures "status" !in r && "completed_at" !in r
  {
    map["overall_field_authenticity" := JInt(score)]
  }

  // ---------------------------------------------------------------------
  // _load_saved_answers

  /** `{row[field]: row for row in rows}`: a row without the field raises
      KeyError; with repeated values the later row wins. */
  function KeyRows(rows: seq<Row>, field: string): (r: Result<map<Json, Row>>)
    ensures r.Ok? <==> forall k :: 0 <= k < |rows| ==> field in rows[k]
    ensures r.Ok? ==> forall key :: key in r.value <==> exists k :: 0 <= k < |rows| && field in rows[k] && rows[k][field] == key
  {
    if rows == [] then Ok(map[])
    else
      var init := rows[..|rows| - 1];
      var last := rows[|rows| - 1];
      assert forall k :: 0 <= k < |init| ==> init[k] == rows[k];
      match KeyRows(init, field)
      case Err(e) => Err(e)
      case Ok(m) =>
        if field in last then Ok(m[last[field] := last]) else Err("KeyError: " + QuoteStr(field))
  }

  /** A row is kept under its value unless a later row has the same one. */
  lemma {:induction false} KeyRowsLaterWins(rows: seq<Row>, field: string, k: nat)
    requires KeyRows(rows, field).Ok? && k < |rows|
    requires forall j :: k < j < |rows| ==> rows[j][field] != rows[k][field]
    ensures KeyRows(rows, field).value[rows[k][field]] == rows[k]
  {
    if k < |rows| - 1 {
      var init := rows[..|rows| - 1];
      assert init[k] == rows[k];
      assert forall j :: k < j < |init| ==> init[j] == rows[j];
      KeyRowsLaterWins(init, field, k);
    }
  }

  /** `{...: row for row in (resp.data or [])}`: missing data gives {}. */
  function SavedByIndex(data: Option<seq<Row>>, field: string): (r: Result<map<Json, Row>>)
    ensures data.None? || data == Some([]) ==> r == Ok(map[])
  {
    match data
    case None => Ok(map[])
    case Some(rows) => KeyRows(rows, field)
  }

  // ---------------------------------------------------------------------
  // Resuming an evaluation

  /** No widget set by the user: every widget shows its starting value. */
  function Untouched(): Widgets {
    (key: string) => None
  }

  /** A selectbox started from a value it itself produced shows that value
      again. */
  lemma SelectionRestored(options: seq<string>, v: string)
    requires v in options
    ensures SelectBox(options, DefaultIndex(options, JStr(v)), None) == v
  {
  }

  /** A saved state-log row, with whatever common columns, reads back as
      the answers it holds. */
  lemma Format1RowRead(e: Format1Input, common: Row)
    ensures var row := common + Format1Row(e);
      && "event_index" in row && row["event_index"] == JInt(e.eventIndex)
      && Saved(row, "clinical_impact") == JStr(e.clinicalImpact)
      && Saved(row, "environmental_impact") == JStr(e.environmentalImpact)
      && Saved(row, "home_service_adoption_impact") == JStr(e.homeServiceAdoptionImpact)
      && Saved(row, "edd_delta") == JStr(e.eddDelta)
      && MapGet(row, "bottleneck_realism", JBool(true)) == JBool(e.bottleneckRealism)
  {
  }

  /** A saved entry read back, with no widget touched, gives the entry it
      was saved from. */
  lemma Format1EntryRestored(e: Format1Input, common: Row)
    requires e.clinicalImpact in ClinicalEnvOptions && e.environmentalImpact in ClinicalEnvOptions
    requires e.homeServiceAdoptionImpact in ServiceAdoptionOptions && e.eddDelta in EddDeltaOptions
    ensures Format1Entry(e.eventIndex, common + Format1Row(e), Untouched()) == e
  {
    Format1RowRead(e, common);
    SelectionRestored(ClinicalEnvOptions, e.clinicalImpact);
    SelectionRestored(ClinicalEnvOptions, e.environmentalImpact);
    SelectionRestored(ServiceAdoptionOptions, e.homeServiceAdoptionImpact);
    SelectionRestored(EddDeltaOptions, e.eddDelta);
  }

  /** Resuming: when the rows `_save_answers` inserted for the state log
      are what `_load_saved_answers` reads back, and the user touches
      nothing, the page rebuilds the same state-log inputs. */
  lemma ResumeRestoresFormat1(stateLog: seq<Json>, saved: map<Json, Row>, widgets: Widgets, common: Row)
    ensures var inputs := Format1Inputs(stateLog, saved, widgets);
      var loaded := KeyRows(Merged(common, Format1Rows(inputs)), "event_index");
      && loaded.Ok?
      && Format1Inputs(stateLog, loaded.value, Untouched()) == inputs
  {
    var inputs := Format1Inputs(stateLog, saved, widgets);
    var rows := Merged(common, Format1Rows(inputs));
    assert forall k :: 0 <= k < |rows| ==> rows[k] == common + Format1Row(inputs[k]);
    forall k | 0 <= k < |rows|
      ensures "event_index" in rows[k] && rows[k]["event_index"] == JInt(k)
    {
      Format1RowRead(inputs[k], common);
    }
    var loaded := KeyRows(rows, "event_index").value;
    forall i | 0 <= i < |stateLog|
      ensures Format1Entry(i, SavedAt(loaded, i), Untouched()) == inputs[i]
    {
      KeyRowsLaterWins(rows, "event_index", i);
      Format1EntryRestored(inputs[i], common);
    }
  }

  /** Resuming restores the viability scores and the categories too: each
      saved row, read back with no widget touched, gives the entry it was
      saved from. */
  lemma Format2EntryRestored(e: Format2Input, common: Row)
    ensures Format2Entry(e.tripleIndex, common + Format2Row(e), Untouched()) == Ok(e)
  {
    var row := common + Format2Row(e);
    assert "tactical_viability_score" in row && row["tactical_viability_score"] == JInt(e.tacticalViabilityScore);
  }

  lemma Format3EntryRestored(e: Format3Input, option: Json, common: Row)
    requires e.pnCategory in CategoryOptions && option.JObj?
    requires e.aiIntendedCategory == Get(option, "ai_intended_category", JStr("")).value
    ensures Format3Entry(e.optionIndex, option, common + Format3Row(e), Untouched()) == Ok(e)
  {
    var row := common + Format3Row(e);
    assert Saved(row, "pn_category") == JStr(e.pnCategory);
    SelectionRestored(CategoryOptions, e.pnCategory);
  }

  // ---------------------------------------------------------------------
  // Entering and leaving the page

  /** The value `st.session_state.get(key)` yields. */
  function SessionValue(state: State, key: string): Json {
    MapGet(state, key, JNull)
  }

  /** `render`'s first check: without an open session and case the page
      sends the navigator back to the dashboard. */
  method Enter(session: SessionState) returns (open: bool)
    modifies session
    ensures open <==> Truthy(SessionValue(old(session.entries), "current_session_id"))
                      && Truthy(SessionValue(old(session.entries), "current_case_id"))
    ensures open ==> session.entries == old(session.entries)
    ensures !open ==> session.entries == old(session.entries)["current_page" := JStr("pn_dashboard")]
  {
    var sessionId := SessionValue(session.entries, "current_session_id");
    var caseId := SessionValue(session.entries, "current_case_id");
    if !Truthy(sessionId) || !Truthy(caseId) {
      session.entries := session.entries["current_page" := JStr("pn_dashboard")];
      return false;
    }
    return true;
  }

  /** "< Back to Dashboard". */
  method BackToDashboard(session: SessionState)
    modifies session
    ensures session.entries == old(session.entries)["current_page" := JStr("pn_dashboard")]
  {
    session.entries := session.entries["current_page" := JStr("pn_dashboard")];
  }
}
