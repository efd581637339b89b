/** The batch script (generate_batch_25.py): twenty-five cases with drawn
    targets, each given up to three attempts at the model endpoint, with the
    waits and the success and failure counters of its retry loop. The
    retrieval, prompt and schema are those of the single-run script. */
module GenerateBatch25 {
  import opened PyValues
  import opened Schema
  import opened GenerateSynthetic

  const BatchOutputDir: string := "./data/synthetic_batch_25"
  const CaseCount: nat := 25
  const MaxAttempts: nat := 3
  const BatchComplexity: int := 4
  const PauseBetweenCases: nat := 2
  const PauseAfterError: nat := 5

  const Patients: seq<string> := [
    "88yo Male, Bilateral TKA",
    "78yo Female, CHF",
    "65yo Male, COPD exacerbation",
    "72yo Female, Hip fracture ORIF",
    "81yo Male, Stroke rehab",
    "69yo Female, Diabetic wound care",
    "75yo Male, Cardiac bypass recovery",
    "83yo Female, Pneumonia post-ICU",
    "70yo Male, Spinal fusion",
    "77yo Female, Renal failure transition",
    "86yo Male, Dementia with fall history",
    "74yo Female, Cancer post-chemo rehab",
    "79yo Male, Amputation rehab",
    "68yo Female, Multiple sclerosis flare",
    "82yo Male, Parkinson's with UTI"]

  const Frictions: seq<string> := [
    "Managed Medicare Auth",
    "Family Conflict Over Discharge",
    "SW Gatekeeping Records",
    "Facility Pushing Early Discharge",
    "Missing Physician Signature",
    "Insurance Denial of Home Services",
    "Bed Availability Crisis",
    "Weekend Coverage Gap",
    "Medication Reconciliation Delay",
    "Transport Coordination Failure"]

  const BatchSystemPrompt: string := @"You are an AI Healthcare Architect generating high-complexity synthetic cases to test 20-year non-clinical Patient Navigator veterans. You must strictly adhere to the Static Taxonomies. CRITICAL INSTRUCTION: You must inject 'Institutional Politics' into the case. Do not assume facility staff are perfectly rational or collaborative. You must include at least one of the following: a burned-out Social Worker, a facility protecting its 100-day Medicare financial cliff, or a hostile/anxious family dynamic. You must make highly specific claims about delays that veterans can verify."

  // ---------------------------------------------------------------------
  // Targets and output names

  /** `random.choice(PATIENTS)` and `random.choice(FRICTIONS)` for case `i`:
      `draws(i)` are the generator's two picks, reduced into range. */
  function CaseTargets(draws: nat -> (nat, nat), i: nat): (r: (string, string))
    ensures r.0 in Patients && r.1 in Frictions
  {
    (Patients[draws(i).0 % |Patients|], Frictions[draws(i).1 % |Frictions|])
  }

  /** `os.path.join(OUTPUT_DIR, f"case_{i+1:02d}.json")`. */
  function CasePath(i: nat): string {
    BatchOutputDir + "/case_" + Pad2(i + 1) + ".json"
  }

  /** Every case of the batch has a file name of its own. */
  lemma CasePathInjective(i: nat, j: nat)
    requires i != j
    ensures CasePath(i) != CasePath(j)
  {
    var pre := BatchOutputDir + "/case_";
    if CasePath(i) == CasePath(j) {
      var a, b := Pad2(i + 1), Pad2(j + 1);
      assert CasePath(i) == pre + (a + ".json");
      assert CasePath(j) == pre + (b + ".json");
      assert CasePath(i)[|pre|..] == a + ".json";
      assert CasePath(j)[|pre|..] == b + ".json";
      assert a == (a + ".json")[..|a + ".json"| - 5];
      assert b == (b + ".json")[..|b + ".json"| - 5];
      Pad2Injective(i + 1, j + 1);
    }
  }

  /** The twenty-five names are `case_01.json` to `case_25.json`. */
  lemma CasePathWidth(i: nat)
    requires i < CaseCount
    ensures |CasePath(i)| == |BatchOutputDir + "/case_"| + 2 + 5
  {
  }

  // ---------------------------------------------------------------------
  // One attempt

  /** What one attempt makes of the endpoint's reply: the validated case,
      or the text of the exception that lands in the `except` clause
      (raised by the call, by `json.loads` or by `model_validate`). */
  function AttemptResult(reply: Reply, loads: string -> Decoded): (r: Result<SyntheticCaseOutput>)
  {
    match reply
    case Raised(e) => Err(e)
    case Text(t) =>
      match loads(StripFences(t))
      case DecodeError(what, line, col, pos) => Err(DecodeErrorText(what, line, col, pos))
      case Parsed(data) => ValidateCase(data)
  }

  /** The batch accepts exactly the replies the single-run gate accepts,
      as the same case. */
  lemma AttemptAgreesWithGate(t: string, loads: string -> Decoded)
    ensures AttemptResult(Text(t), loads).Ok? <==> ParseAndValidate(t, loads).Ok?
    ensures AttemptResult(Text(t), loads).Ok? ==> AttemptResult(Text(t), loads) == ParseAndValidate(t, loads)
  {
  }

  /** `"429" in err or "rate" in err.lower()`. */
  predicate IsRateLimit(err: string) {
    Contains(err, "429") || Contains(Lower(err), "rate")
  }

  /** A status code 429 anywhere in the message is a rate limit. */
  lemma StatusCodeIsRateLimit(a: string, b: string)
    ensures IsRateLimit(a + "429" + b)
  {
    ContainsAt(a, "429", b);
  }

  /** So is the word "rate" in any mix of cases. */
  lemma RateInAnyCaseIsRateLimit(a: string, w: string, b: string)
    requires Lower(w) == "rate"
    ensures IsRateLimit(a + w + b)
  {
    LowerConcat(a + w, b);
    LowerConcat(a, w);
    ContainsAt(Lower(a), "rate", Lower(b));
  }

  /** And so is any message that merely contains "generate" (or
      "separate", "accurate", ...): the substring test cannot tell them
      apart from a rate limit. */
  lemma GenerateIsRateLimit(a: string, b: string)
    ensures IsRateLimit(a + "generate" + b)
  {
    assert a + "generate" + b == (a + "gene") + "rate" + b;
    assert Lower("rate") == "rate";
    RateInAnyCaseIsRateLimit(a + "gene", "rate", b);
  }

  /** The pause after a failed attempt: 60, 120 or 180 seconds for a rate
      limit, 5 seconds for any other error before the last attempt and none
      after it. */
  function Pause(attempt: nat, err: string): seq<nat> {
    if IsRateLimit(err) then [60 * (attempt + 1)]
    else if attempt == MaxAttempts - 1 then []
    else [PauseAfterError]
  }

  /** A failed attempt pauses once at most, never for the two seconds that
      separate cases, and for one of the four durations the script uses. */
  lemma PauseValues(attempt: nat, err: string)
    requires attempt < MaxAttempts
    ensures |Pause(attempt, err)| <= 1
    ensures forall x :: x in Pause(attempt, err) ==> x in {5, 60, 120, 180} && x != PauseBetweenCases
    ensures IsRateLimit(err) <==> Pause(attempt, err) == [60 * (attempt + 1)]
    ensures !IsRateLimit(err) ==> (Pause(attempt, err) == [] <==> attempt == MaxAttempts - 1)
  {
  }

  // ---------------------------------------------------------------------
  // One case

  /** The counters of `main`. */
  datatype Tally = Tally(successes: nat, failures: nat)

  /** What the batch has done so far: the files written, the requests sent,
      the pauses taken and the counters. */
  datatype BatchState = BatchState(files: map<string, Json>, requests: seq<string>, sleeps: seq<nat>, tally: Tally)

  /** Attempts `attempt`, ..., 2 of one case: `verdict(k)` is what the
      attempt makes of the reply to the k-th request sent. A success saves
      the case and ends the case; an error pauses and tries again, and an
      error other than a rate limit on the last attempt is counted as a
      failure. */
  function Attempts(verdict: nat -> Result<SyntheticCaseOutput>, request: string, path: string,
                    attempt: nat, st: BatchState): (r: BatchState)
    ensures st.requests <= r.requests && st.sleeps <= r.sleeps
    ensures |r.requests| <= |st.requests| + (if attempt < MaxAttempts then MaxAttempts - attempt else 0)
    ensures st.tally.successes <= r.tally.successes && st.tally.failures <= r.tally.failures
    ensures r.tally.successes + r.tally.failures <= st.tally.successes + st.tally.failures + 1
    decreases MaxAttempts - attempt
  {
    if attempt >= MaxAttempts then st
    else
      var sent := st.(requests := st.requests + [request]);
      match verdict(|st.requests|)
      case Ok(c) =>
        sent.(files := st.files[path := ToJson(c)], tally := st.tally.(successes := st.tally.successes + 1))
      case Err(e) =>
        var waited := sent.(sleeps := st.sleeps + Pause(attempt, e));
        if !IsRateLimit(e) && attempt == MaxAttempts - 1 then
          waited.(tally := st.tally.(failures := st.tally.failures + 1))
        else
          Attempts(verdict, request, path, attempt + 1, waited)
  }

  /** The verdicts of a run: `AttemptResult` of the reply to each request. */
  function Verdicts(reply: nat -> Reply, loads: string -> Decoded): nat -> Result<SyntheticCaseOutput> {
    (k: nat) => AttemptResult(reply(k), loads)
  }

  /** How many calls a case makes when its first call is the k-th request:
      every call up to the first success, three at most. */
  function Calls(verdict: nat -> Result<SyntheticCaseOutput>, k: nat): (n: nat)
    ensures 1 <= n <= MaxAttempts
    ensures forall j :: k <= j < k + n - 1 ==> verdict(j).Err?
    ensures n < MaxAttempts ==> verdict(k + n - 1).Ok?
  {
    if verdict(k).Ok? then 1
    else if verdict(k + 1).Ok? then 2
    else 3
  }

  /** The verdict on a case's last call, which decides the case. */
  function LastTry(verdict: nat -> Result<SyntheticCaseOutput>, k: nat): Result<SyntheticCaseOutput> {
    verdict(k + Calls(verdict, k) - 1)
  }

  /** The pause after the `j`-th call of a case, if that call failed. */
  function WaitAt(verdict: nat -> Result<SyntheticCaseOutput>, k: nat, j: nat): seq<nat> {
    if verdict(k + j).Err? then Pause(j, verdict(k + j).msg) else []
  }

  /** The pauses a case takes, call by call. */
  function CaseWaits(verdict: nat -> Result<SyntheticCaseOutput>, k: nat): seq<nat> {
    var n := Calls(verdict, k);
    WaitAt(verdict, k, 0)
      + (if n >= 2 then WaitAt(verdict, k, 1) else [])
      + (if n >= 3 then WaitAt(verdict, k, 2) else [])
  }

  /** A case sends its request once per call it makes, and nothing else. */
  lemma CaseRequests(verdict: nat -> Result<SyntheticCaseOutput>, request: string, path: string, st: BatchState)
    ensures var r := Attempts(verdict, request, path, 0, st);
      r.requests == st.requests + seq(Calls(verdict, |st.requests|), _ => request)
  {
    var k := |st.requests|;
    var s1 := Attempts(verdict, request, path, 0, st);
    if verdict(k).Err? {
      var e0 := verdict(k).msg;
      var w0 := st.(requests := st.requests + [request], sleeps := st.sleeps + Pause(0, e0));
      assert s1 == Attempts(verdict, request, path, 1, w0);
      if verdict(k + 1).Err? {
        var e1 := verdict(k + 1).msg;
        var w1 := w0.(requests := w0.requests + [request], sleeps := w0.sleeps + Pause(1, e1));
        assert s1 == Attempts(verdict, request, path, 2, w1);
        assert s1.requests == w1.requests + [request];
      }
    }
  }

  /** A case counts one success exactly when its last call succeeds, and
      one failure exactly when the last call fails with an error other than
      a rate limit; it never counts both. */
  lemma CaseTally(verdict: nat -> Result<SyntheticCaseOutput>, request: string, path: string, st: BatchState)
    ensures var r := Attempts(verdict, request, path, 0, st);
      var last := LastTry(verdict, |st.requests|);
      && r.tally.successes == st.tally.successes + (if last.Ok? then 1 else 0)
      && r.tally.failures == st.tally.failures + (if last.Err? && !IsRateLimit(last.msg) then 1 else 0)
  {
    var k := |st.requests|;
    var s1 := Attempts(verdict, request, path, 0, st);
    if verdict(k).Err? {
      var e0 := verdict(k).msg;
      var w0 := st.(requests := st.requests + [request], sleeps := st.sleeps + Pause(0, e0));
      assert s1 == Attempts(verdict, request, path, 1, w0);
      if verdict(k + 1).Err? {
        var e1 := verdict(k + 1).msg;
        var w1 := w0.(requests := w0.requests + [request], sleeps := w0.sleeps + Pause(1, e1));
        assert s1 == Attempts(verdict, request, path, 2, w1);
      }
    }
  }

  /** A case writes its file exactly when it succeeds, with the case of the
      successful call, and no other file. */
  lemma CaseFiles(verdict: nat -> Result<SyntheticCaseOutput>, request: string, path: string, st: BatchState)
    ensures var r := Attempts(verdict, request, path, 0, st);
      var last := LastTry(verdict, |st.requests|);
      && (last.Ok? ==> r.files == st.files[path := ToJson(last.value)])
      && (last.Err? ==> r.files == st.files)
  {
    var k := |st.requests|;
    var s1 := Attempts(verdict, request, path, 0, st);
    if verdict(k).Err? {
      var e0 := verdict(k).msg;
      var w0 := st.(requests := st.requests + [request], sleeps := st.sleeps + Pause(0, e0));
      assert s1 == Attempts(verdict, request, path, 1, w0);
      if verdict(k + 1).Err? {
        var e1 := verdict(k + 1).msg;
        var w1 := w0.(requests := w0.requests + [request], sleeps := w0.sleeps + Pause(1, e1));
        assert s1 == Attempts(verdict, request, path, 2, w1);
      }
    }
  }

  /** A case pauses after each failed call as `Pause` says, in call order,
      and at no other time. */
  lemma CasePauses(verdict: nat -> Result<SyntheticCaseOutput>, request: string, path: string, st: BatchState)
    ensures Attempts(verdict, request, path, 0, st).sleeps == st.sleeps + CaseWaits(verdict, |st.requests|)
  {
    var k := |st.requests|;
    var s1 := Attempts(verdict, request, path, 0, st);
    if verdict(k).Err? {
      var e0 := verdict(k).msg;
      var w0 := st.(requests := st.requests + [request], sleeps := st.sleeps + Pause(0, e0));
      assert s1 == Attempts(verdict, request, path, 1, w0);
      if verdict(k + 1).Err? {
        var e1 := verdict(k + 1).msg;
        var w1 := w0.(requests := w0.requests + [request], sleeps := w0.sleeps + Pause(1, e1));
        assert s1 == Attempts(verdict, request, path, 2, w1);
        assert w1.sleeps == st.sleeps + (Pause(0, e0) + Pause(1, e1));
      }
    }
  }

  /** The script's quirk: a case whose third attempt is rate limited is
      counted neither as a success nor as a failure. */
  lemma RateLimitedLastAttemptUncounted(verdict: nat -> Result<SyntheticCaseOutput>, request: string,
                                        path: string, st: BatchState)
    requires forall j :: |st.requests| <= j < |st.requests| + MaxAttempts ==> verdict(j).Err?
    requires IsRateLimit(verdict(|st.requests| + 2).msg)
    ensures Attempts(verdict, request, path, 0, st).tally == st.tally
  {
    CaseTally(verdict, request, path, st);
  }

  // ---------------------------------------------------------------------
  // The batch

  /** The single-run script's settings are read when the batch imports it,
      so a malformed number there stops the batch too; then the three
      taxonomies are loaded. The batch does not check for the API key. */
  function BatchSetup(env: map<string, string>, svc: Services): Result<Taxonomies> {
    match LoadConfig(env)
    case Err(e) => Err(e)
    case Ok(_) => LoadTaxonomies(svc)
  }

  function CaseExamples(svc: Services, targets: (string, string)): Result<seq<Json>> {
    FewShotExamples(svc.query(QueryText(targets.1), BatchComplexity, FewShotCount), svc.loads)
  }

  function CaseRequest(tax: Taxonomies, examples: seq<Json>, targets: (string, string), svc: Services): string {
    BatchSystemPrompt + "\n\n" + BuildPrompt(tax, examples, targets.0, targets.1, svc.dumps, svc.schemaText)
  }

  /** Where a case's retrieval leaves the request: the retrieval error
      (raised outside the retry loop, so it stops the batch) or the request
      every attempt of the case sends. */
  function CasePending(tax: Taxonomies, svc: Services, targets: (string, string)): Result<string> {
    match CaseExamples(svc, targets)
    case Err(e) => Err(e)
    case Ok(examples) => Ok(CaseRequest(tax, examples, targets, svc))
  }

  /** Cases `i`, ..., 24 of the batch; `pending(i)` is what case `i`'s
      retrieval gives. Each case ends with the two-second pause. */
  function Cases(verdict: nat -> Result<SyntheticCaseOutput>, pending: nat -> Result<string>,
                 i: nat, st: BatchState): (r: (BatchState, Outcome))
    ensures st.requests <= r.0.requests && st.sleeps <= r.0.sleeps
    ensures st.tally.successes <= r.0.tally.successes && st.tally.failures <= r.0.tally.failures
    ensures r.0.tally.successes + r.0.tally.failures
            <= st.tally.successes + st.tally.failures + (if i < CaseCount then CaseCount - i else 0)
    decreases CaseCount - i
  {
    if i >= CaseCount then (st, Finished)
    else
      match pending(i)
      case Err(e) => (st, Aborted(e))
      case Ok(request) =>
        var done := Attempts(verdict, request, CasePath(i), 0, st);
        Cases(verdict, pending, i + 1, done.(sleeps := done.sleeps + [PauseBetweenCases]))
  }

  function Pendings(tax: Taxonomies, svc: Services, draws: nat -> (nat, nat)): nat -> Result<string> {
    (i: nat) => CasePending(tax, svc, CaseTargets(draws, i))
  }

  /** A whole run of the batch script, from zeroed counters. */
  function BatchRun(env: map<string, string>, svc: Services, draws: nat -> (nat, nat),
                    files: map<string, Json>, requests: seq<string>, sleeps: seq<nat>): (r: (BatchState, Outcome))
    ensures requests <= r.0.requests && sleeps <= r.0.sleeps
    ensures r.0.tally.successes + r.0.tally.failures <= CaseCount
  {
    var start := BatchState(files, requests, sleeps, Tally(0, 0));
    match BatchSetup(env, svc)
    case Err(e) => (start, Aborted(e))
    case Ok(tax) => Cases(Verdicts(svc.reply, svc.loads), Pendings(tax, svc, draws), 0, start)
  }

  /** The counters never go down, and together they grow by at most one per
      case. */
  lemma {:induction false} CasesTally(verdict: nat -> Result<SyntheticCaseOutput>, pending: nat -> Result<string>,
                                      i: nat, st: BatchState)
    requires i <= CaseCount
    ensures var t := Cases(verdict, pending, i, st).0.tally;
      && st.tally.successes <= t.successes
      && st.tally.failures <= t.failures
      && t.successes + t.failures <= st.tally.successes + st.tally.failures + (CaseCount - i)
    decreases CaseCount - i
  {
    if i < CaseCount && pending(i).Ok? {
      var done := Attempts(verdict, pending(i).value, CasePath(i), 0, st);
      CaseTally(verdict, pending(i).value, CasePath(i), st);
      CasesTally(verdict, pending, i + 1, done.(sleeps := done.sleeps + [PauseBetweenCases]));
    }
  }

  /** At most three calls per case: a batch sends at most 75 requests, all
      after the ones already sent. */
  lemma {:induction false} CasesRequests(verdict: nat -> Result<SyntheticCaseOutput>, pending: nat -> Result<string>,
                                         i: nat, st: BatchState)
    requires i <= CaseCount
    ensures var r := Cases(verdict, pending, i, st).0.requests;
      |st.requests| <= |r| <= |st.requests| + MaxAttempts * (CaseCount - i) && r[..|st.requests|] == st.requests
    decreases CaseCount - i
  {
    if i < CaseCount && pending(i).Ok? {
      var done := Attempts(verdict, pending(i).value, CasePath(i), 0, st);
      CaseRequests(verdict, pending(i).value, CasePath(i), st);
      var next := done.(sleeps := done.sleeps + [PauseBetweenCases]);
      CasesRequests(verdict, pending, i + 1, next);
      var r := Cases(verdict, pending, i + 1, next).0.requests;
      assert r[..|st.requests|] == r[..|next.requests|][..|st.requests|];
    }
  }

  /** How often `x` occurs in `s`. */
  function Count(s: seq<nat>, x: nat): nat {
    if s == [] then 0 else (if s[0] == x then 1 else 0) + Count(s[1..], x)
  }

  lemma {:induction false} CountConcat(a: seq<nat>, b: seq<nat>, x: nat)
    ensures Count(a + b, x) == Count(a, x) + Count(b, x)
  {
    if a == [] {
      assert a + b == b;
    } else {
      assert (a + b)[1..] == a[1..] + b;
      CountConcat(a[1..], b, x);
    }
  }

  /** The pauses a case takes never last two seconds. */
  lemma CaseWaitsNoCasePause(verdict: nat -> Result<SyntheticCaseOutput>, k: nat)
    ensures Count(CaseWaits(verdict, k), PauseBetweenCases) == 0
  {
    var x := PauseBetweenCases;
    var w0 := WaitAt(verdict, k, 0);
    var w1 := if Calls(verdict, k) >= 2 then WaitAt(verdict, k, 1) else [];
    var w2 := if Calls(verdict, k) >= 3 then WaitAt(verdict, k, 2) else [];
    if verdict(k).Err? { PauseValues(0, verdict(k).msg); }
    if verdict(k + 1).Err? { PauseValues(1, verdict(k + 1).msg); }
    if verdict(k + 2).Err? { PauseValues(2, verdict(k + 2).msg); }
    assert Count(w0, x) == 0 && Count(w1, x) == 0 && Count(w2, x) == 0;
    CountConcat(w0, w1, x);
    CountConcat(w0 + w1, w2, x);
  }

  /** Every case of a finished batch, whatever its outcome, is followed by
      exactly one two-second pause. */
  lemma {:induction false} CasesPauseAfterEvery(verdict: nat -> Result<SyntheticCaseOutput>, pending: nat -> Result<string>,
                                                i: nat, st: BatchState)
    requires i <= CaseCount
    ensures var (r, outcome) := Cases(verdict, pending, i, st);
      outcome.Finished? ==> Count(r.sleeps, PauseBetweenCases) == Count(st.sleeps, PauseBetweenCases) + (CaseCount - i)
    decreases CaseCount - i
  {
    if i < CaseCount && pending(i).Ok? {
      var x := PauseBetweenCases;
      var k := |st.requests|;
      var done := Attempts(verdict, pending(i).value, CasePath(i), 0, st);
      CasePauses(verdict, pending(i).value, CasePath(i), st);
      CaseWaitsNoCasePause(verdict, k);
      var w := CaseWaits(verdict, k);
      var next := done.(sleeps := done.sleeps + [x]);
      assert done.sleeps == st.sleeps + w;
      CountConcat(st.sleeps, w, x);
      CountConcat(done.sleeps, [x], x);
      assert Count([x], x) == 1;
      CasesPauseAfterEvery(verdict, pending, i + 1, next);
    }
  }

  /** The batch writes nothing outside its own case files. */
  lemma {:induction false} CasesTouchOnlyCaseFiles(verdict: nat -> Result<SyntheticCaseOutput>,
                                                   pending: nat -> Result<string>, i: nat, st: BatchState, p: string)
    requires forall j :: i <= j < CaseCount ==> p != CasePath(j)
    ensures var r := Cases(verdict, pending, i, st).0;
      (p in r.files <==> p in st.files) && (p in st.files ==> r.files[p] == st.files[p])
    decreases CaseCount - i
  {
    if i < CaseCount && pending(i).Ok? {
      var done := Attempts(verdict, pending(i).value, CasePath(i), 0, st);
      CaseFiles(verdict, pending(i).value, CasePath(i), st);
      assert p != CasePath(i);
      CasesTouchOnlyCaseFiles(verdict, pending, i + 1, done.(sleeps := done.sleeps + [PauseBetweenCases]), p);
    }
  }

  /** Over a whole run: at most 25 cases are counted at all. */
  lemma BatchTallyBound(env: map<string, string>, svc: Services, draws: nat -> (nat, nat),
                        files: map<string, Json>, requests: seq<string>, sleeps: seq<nat>)
    ensures var t := BatchRun(env, svc, draws, files, requests, sleeps).0.tally;
      t.successes + t.failures <= CaseCount
  {
    var start := BatchState(files, requests, sleeps, Tally(0, 0));
    match BatchSetup(env, svc)
    case Err(_) =>
    case Ok(tax) =>
      CasesTally(Verdicts(svc.reply, svc.loads), Pendings(tax, svc, draws), 0, start);
  }

  // ---------------------------------------------------------------------
  // The loops

  /** `for attempt in range(3)` of one case, with its `break` on success;
      the counters come in and go out as `tally`. */
  method RunCase(ws: Workspace, svc: Services, request: string, path: string, tally: Tally) returns (after: Tally)
    modifies ws
    ensures BatchState(ws.files, ws.requests, ws.sleeps, after)
         == Attempts(Verdicts(svc.reply, svc.loads), request, path, 0,
                     BatchState(old(ws.files), old(ws.requests), old(ws.sleeps), tally))
  {
    ghost var verdict := Verdicts(svc.reply, svc.loads);
    ghost var start := BatchState(ws.files, ws.requests, ws.sleeps, tally);
    after := tally;
    var attempt := 0;
    while attempt < MaxAttempts
      invariant 0 <= attempt <= MaxAttempts
      invariant Attempts(verdict, request, path, attempt, BatchState(ws.files, ws.requests, ws.sleeps, after))
             == Attempts(verdict, request, path, 0, start)
    {
      ghost var here := BatchState(ws.files, ws.requests, ws.sleeps, after);
      var result := AttemptResult(svc.reply(|ws.requests|), svc.loads);
      assert result == verdict(|here.requests|);
      ws.requests := ws.requests + [request];
      if result.Ok? {
        ws.files := ws.files[path := ToJson(result.value)];
        after := after.(successes := after.successes + 1);
        assert BatchState(ws.files, ws.requests, ws.sleeps, after) == Attempts(verdict, request, path, attempt, here);
        break;
      }
      var err := result.msg;
      if IsRateLimit(err) {
        ws.sleeps := ws.sleeps + [60 * (attempt + 1)];
      } else if attempt == MaxAttempts - 1 {
        after := after.(failures := after.failures + 1);
      } else {
        ws.sleeps := ws.sleeps + [PauseAfterError];
      }
      attempt := attempt + 1;
    }
  }

  /** `main` of the batch script: setup, then the loop over the cases, each
      case's draws, retrieval and prompt being `Pendings`. */
  method RunBatch(ws: Workspace, env: map<string, string>, svc: Services, draws: nat -> (nat, nat))
    returns (tally: Tally, outcome: Outcome)
    modifies ws
    ensures (BatchState(ws.files, ws.requests, ws.sleeps, tally), outcome)
         == BatchRun(env, svc, draws, old(ws.files), old(ws.requests), old(ws.sleeps))
  {
    var setup := BatchSetup(env, svc);
    if setup.Err? {
      return Tally(0, 0), Aborted(setup.msg);
    }
    tally, outcome := RunCases(ws, svc, Pendings(setup.value, svc, draws));
  }

  /** `for i in range(25)`: case `i` computes `pending(i)` (the draws, the
      retrieval and the prompt), stops the batch on a retrieval error, runs
      its attempts and pauses. */
  method RunCases(ws: Workspace, svc: Services, pending: nat -> Result<string>) returns (tally: Tally, outcome: Outcome)
    modifies ws
    ensures (BatchState(ws.files, ws.requests, ws.sleeps, tally), outcome)
         == Cases(Verdicts(svc.reply, svc.loads), pending, 0,
                  BatchState(old(ws.files), old(ws.requests), old(ws.sleeps), Tally(0, 0)))
  {
    tally := Tally(0, 0);
    ghost var verdict := Verdicts(svc.reply, svc.loads);
    ghost var start := BatchState(ws.files, ws.requests, ws.sleeps, tally);
    var i := 0;
    while i < CaseCount
      invariant 0 <= i <= CaseCount
      invariant Cases(verdict, pending, i, BatchState(ws.files, ws.requests, ws.sleeps, tally))
             == Cases(verdict, pending, 0, start)
    {
      var request := pending(i);
      if request.Err? {
        return tally, Aborted(request.msg);
      }
      tally := RunCase(ws, svc, request.value, CasePath(i), tally);
      ws.sleeps := ws.sleeps + [PauseBetweenCases];
      i := i + 1;
    }
    outcome := Finished;
  }
}
