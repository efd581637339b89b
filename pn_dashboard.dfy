/** The navigator dashboard (app/pages/pn_dashboard.py): the numeric sort
    key of a case label, the split of cases into pending, in-progress and
    completed ones for the signed-in navigator, and the summary line shown
    for each. */
module PnDashboard {
  import opened PyValues
  import opened Auth

  // ---------------------------------------------------------------------
  // _label_sort_key

  /** The end of the run of digits starting at `k`. */
  function DigitRunEnd(s: string, k: nat): (e: nat)
    requires k <= |s|
    ensures k <= e <= |s|
    ensures forall j :: k <= j < e ==> IsDigit(s[j])
    ensures e < |s| ==> !IsDigit(s[e])
    decreases |s| - k
  {
    if k < |s| && IsDigit(s[k]) then DigitRunEnd(s, k + 1) else k
  }

  /** The position of the first digit at or after `k`. */
  function FirstDigit(s: string, k: nat): (r: Option<nat>)
    requires k <= |s|
    ensures r.None? ==> forall j :: k <= j < |s| ==> !IsDigit(s[j])
    ensures r.Some? ==> k <= r.value < |s| && IsDigit(s[r.value])
    ensures r.Some? ==> forall j :: k <= j < r.value ==> !IsDigit(s[j])
    decreases |s| - k
  {
    if k == |s| then None
    else if IsDigit(s[k]) then Some(k)
    else FirstDigit(s, k + 1)
  }

  /** `_label_sort_key`: the value of the first run of digits in the label
      (`re.search(r"(\d+)", label or "")`), 0 when there is none or no
      label. */
  function LabelSortKey(caseLabel: Option<string>): (n: nat)
    ensures caseLabel.None? ==> n == 0
    ensures caseLabel.Some? && FirstDigit(caseLabel.value, 0).None? ==> n == 0
  {
    match caseLabel
    case None => 0
    case Some(s) =>
      match FirstDigit(s, 0)
      case None => 0
      case Some(k) => DigitsValue(s[k..DigitRunEnd(s, k)])
  }

  /** The labels the upload gives, "Case_<k>", sort by k. */
  lemma CaseLabelKey(n: nat)
    ensures LabelSortKey(Some("Case_" + NatToString(n))) == n
  {
    var d := NatToString(n);
    var s := "Case_" + d;
    assert s[5] == d[0] && IsDigit(s[5]);
    assert forall j :: 0 <= j < 5 ==> !IsDigit(s[j]);
    var k := FirstDigit(s, 0).value;
    assert k == 5;
    assert forall j :: 5 <= j < |s| ==> s[j] == d[j - 5];
    assert DigitRunEnd(s, 5) == |s|;
    assert s[5..|s|] == d;
    DigitsOfNat(n);
  }

  /** Any label splits as text without digits, the first run of digits and
      a rest that does not continue the run; its key is that run's value,
      which is what `int()` reads from the matched group. */
  lemma LabelSortKeyValue(p: string, d: string, q: string)
    requires forall j :: 0 <= j < |p| ==> !IsDigit(p[j])
    requires d != [] && forall j :: 0 <= j < |d| ==> IsDigit(d[j])
    requires q == [] || !IsDigit(q[0])
    ensures LabelSortKey(Some(p + d + q)) == DigitsValue(d)
    ensures ParseInt(d) == Some(LabelSortKey(Some(p + d + q)) as int)
  {
    var s := p + d + q;
    assert forall j :: 0 <= j < |p| ==> s[j] == p[j];
    assert forall j :: |p| <= j < |p| + |d| ==> s[j] == d[j - |p|];
    assert s[|p|] == d[0];
    var k := FirstDigit(s, 0).value;
    assert k == |p|;
    var e := DigitRunEnd(s, k);
    assert |p| + |d| < |s| ==> s[|p| + |d|] == q[0];
    assert e == |p| + |d|;
    assert s[k..e] == d;
    ParseIntOfDigits(d);
  }

  // ---------------------------------------------------------------------
  // sorted(..., key=...)

  /** `x` placed before the first element whose key is not smaller. */
  function InsertBy<T(==)>(x: T, s: seq<T>, key: T -> nat): (r: seq<T>)
    ensures multiset(r) == multiset(s) + multiset{x}
  {
    if s == [] then [x]
    else if key(x) <= key(s[0]) then [x] + s
    else
      assert s == [s[0]] + s[1..];
      [s[0]] + InsertBy(x, s[1..], key)
  }

  /** `sorted(xs, key=key)`, a stable sort. */
  function SortBy<T(==)>(xs: seq<T>, key: T -> nat): (r: seq<T>)
    ensures multiset(r) == multiset(xs)
  {
    if xs == [] then []
    else
      assert xs == [xs[0]] + xs[1..];
      InsertBy(xs[0], SortBy(xs[1..], key), key)
  }

  predicate SortedBy<T>(s: seq<T>, key: T -> nat) {
    forall i, j :: 0 <= i < j < |s| ==> key(s[i]) <= key(s[j])
  }

  /** The elements with key `k`, in order. */
  function WithKey<T>(s: seq<T>, key: T -> nat, k: nat): seq<T> {
    if s == [] then [] else (if key(s[0]) == k then [s[0]] else []) + WithKey(s[1..], key, k)
  }

  lemma {:induction false} InsertBySorted<T>(x: T, s: seq<T>, key: T -> nat)
    requires SortedBy(s, key)
    ensures SortedBy(InsertBy(x, s, key), key)
  {
    if s != [] {
      SortedByTail(s, key);
      if key(x) <= key(s[0]) {
        assert forall y :: y in s ==> y == s[0] || y in s[1..] by { assert s == [s[0]] + s[1..]; }
        SortedByCons(x, s, key);
      } else {
        var t := s[1..];
        InsertBySorted(x, t, key);
        var rt := InsertBy(x, t, key);
        forall y | y in rt
          ensures key(s[0]) <= key(y)
        {
          assert y in multiset(rt);
          if y != x {
            assert y in multiset(t);
          }
        }
        SortedByCons(s[0], rt, key);
      }
    }
  }

  lemma {:induction false} SortBySorted<T>(xs: seq<T>, key: T -> nat)
    ensures SortedBy(SortBy(xs, key), key)
  {
    if xs != [] {
      SortBySorted(xs[1..], key);
      InsertBySorted(xs[0], SortBy(xs[1..], key), key);
    }
  }

  /** WithKey of a sequence with a known first element. */
  lemma WithKeyCons<T>(y: T, s: seq<T>, key: T -> nat, k: nat)
    ensures WithKey([y] + s, key, k) == (if key(y) == k then [y] else []) + WithKey(s, key, k)
  {
    assert ([y] + s)[0] == y && ([y] + s)[1..] == s;
  }

  /** The step case: `x` goes past the head of `s`. */
  lemma InsertByPastHead<T>(x: T, s: seq<T>, key: T -> nat, k: nat)
    requires s != [] && key(x) > key(s[0])
    requires WithKey(InsertBy(x, s[1..], key), key, k) == (if key(x) == k then [x] else []) + WithKey(s[1..], key, k)
    ensures WithKey(InsertBy(x, s, key), key, k) == (if key(x) == k then [x] else []) + WithKey(s, key, k)
  {
    var rest := InsertBy(x, s[1..], key);
    assert InsertBy(x, s, key) == [s[0]] + rest;
    WithKeyCons(s[0], rest, key, k);
    var tail := WithKey(s[1..], key, k);
    assert WithKey(s, key, k) == (if key(s[0]) == k then [s[0]] else []) + tail;
    var w := WithKey(rest, key, k);
    assert WithKey(InsertBy(x, s, key), key, k) == (if key(s[0]) == k then [s[0]] else []) + w;
    if key(x) == k {
      assert w == [x] + tail;
      assert key(s[0]) != k;
      assert WithKey(s, key, k) == tail;
      assert WithKey(InsertBy(x, s, key), key, k) == w;
    } else {
      assert w == tail;
    }
  }

  lemma {:induction false} InsertByWithKey<T>(x: T, s: seq<T>, key: T -> nat, k: nat)
    ensures WithKey(InsertBy(x, s, key), key, k) == (if key(x) == k then [x] else []) + WithKey(s, key, k)
  {
    if s == [] {
      WithKeyCons(x, [], key, k);
    } else if key(x) <= key(s[0]) {
      WithKeyCons(x, s, key, k);
    } else {
      InsertByWithKey(x, s[1..], key, k);
      InsertByPastHead(x, s, key, k);
    }
  }

  /** Stability: elements with equal keys keep their input order. */
  lemma {:induction false} SortByStable<T>(xs: seq<T>, key: T -> nat, k: nat)
    ensures WithKey(SortBy(xs, key), key, k) == WithKey(xs, key, k)
  {
    if xs != [] {
      SortByStable(xs[1..], key, k);
      InsertByWithKey(xs[0], SortBy(xs[1..], key), key, k);
    }
  }

  // ---------------------------------------------------------------------
  // The partition

  /** A row of `synthetic_cases` as the dashboard selects it. Both columns
      are always selected, so `None` is a NULL column, not a missing key. */
  datatype Case = Case(id: string, caseLabel: Option<string>, narrative: Option<string>)

  /** A row of `evaluation_sessions` as the dashboard selects it. */
  datatype Session = Session(id: string, caseId: string, caseLabel: Option<string>, status: string,
                             completedAt: Option<string>)

  /** `c.get("label", "")` feeds the key; a missing label has key 0. */
  function CaseKey(c: Case): nat {
    LabelSortKey(c.caseLabel)
  }

  function SessionKey(s: Session): nat {
    LabelSortKey(s.caseLabel)
  }

  /** `{s["case_id"]: s for s in sessions}`: the later session wins. */
  function ByCase(sessions: seq<Session>): (m: map<string, Session>)
    ensures forall id :: id in m <==> exists k :: 0 <= k < |sessions| && sessions[k].caseId == id
  {
    if sessions == [] then map[]
    else
      var init := sessions[..|sessions| - 1];
      assert forall k :: 0 <= k < |init| ==> init[k] == sessions[k];
      ByCase(init)[sessions[|sessions| - 1].caseId := sessions[|sessions| - 1]]
  }

  /** For a case started more than once, the dashboard keeps the later
      session. */
  lemma {:induction false} ByCaseLaterWins(sessions: seq<Session>, k: nat)
    requires k < |sessions|
    requires forall j :: k < j < |sessions| ==> sessions[j].caseId != sessions[k].caseId
    ensures ByCase(sessions)[sessions[k].caseId] == sessions[k]
  {
    if k < |sessions| - 1 {
      var init := sessions[..|sessions| - 1];
      assert init[k] == sessions[k];
      assert forall j :: k < j < |init| ==> init[j] == sessions[j];
      ByCaseLaterWins(init, k);
    }
  }

  /** `{c["id"]: c for c in cases}`. */
  function ById(cases: seq<Case>): (m: map<string, Case>)
    ensures forall id :: id in m <==> exists k :: 0 <= k < |cases| && cases[k].id == id
  {
    if cases == [] then map[]
    else
      var init := cases[..|cases| - 1];
      assert forall k :: 0 <= k < |init| ==> init[k] == cases[k];
      ById(init)[cases[|cases| - 1].id := cases[|cases| - 1]]
  }

  /** The sorted cases this navigator has no session for. */
  function PendingCases(sorted: seq<Case>, byCase: map<string, Session>): (r: seq<Case>)
    ensures forall c :: c in r <==> c in sorted && c.id !in byCase
    ensures |r| <= |sorted|
  {
    if sorted == [] then []
    else
      assert forall c :: c in sorted <==> c == sorted[0] || c in sorted[1..];
      (if sorted[0].id !in byCase then [sorted[0]] else []) + PendingCases(sorted[1..], byCase)
  }

  /** `[s for s in sessions if s["status"] == status]`. */
  function WithStatus(sessions: seq<Session>, status: string): (r: seq<Session>)
    ensures forall s :: s in r <==> s in sessions && s.status == status
  {
    if sessions == [] then []
    else
      assert forall s :: s in sessions <==> s == sessions[0] || s in sessions[1..];
      (if sessions[0].status == status then [sessions[0]] else []) + WithStatus(sessions[1..], status)
  }

  /** The three lists the dashboard shows. */
  datatype Board = Board(inProgress: seq<Session>, pendingIds: seq<string>, completed: seq<Session>)

  function Ids(cases: seq<Case>): seq<string> {
    seq(|cases|, k requires 0 <= k < |cases| => cases[k].id)
  }

  /** `render`'s partition, with `all_cases.data or []` and
      `my_sessions.data or []`. */
  function Partition(allCases: Option<seq<Case>>, mySessions: Option<seq<Session>>): (r: Board)
    ensures forall s :: s in r.inProgress ==> s.status == "in_progress" && mySessions.Some? && s in mySessions.value
    ensures forall s :: s in r.completed ==> s.status == "completed" && mySessions.Some? && s in mySessions.value
    ensures |r.pendingIds| <= (if allCases.Some? then |allCases.value| else 0)
  {
    var cases := if allCases.Some? then allCases.value else [];
    var sessions := if mySessions.Some? then mySessions.value else [];
    var sorted := SortBy(cases, CaseKey);
    var inProgress := WithStatus(sessions, "in_progress");
    var completed := WithStatus(sessions, "completed");
    SortByMembers(inProgress, SessionKey);
    SortByMembers(completed, SessionKey);
    assert |sorted| == |multiset(sorted)| == |multiset(cases)| == |cases|;
    Board(SortBy(inProgress, SessionKey), Ids(PendingCases(sorted, ByCase(sessions))), SortBy(completed, SessionKey))
  }

  /** `sorted` keeps exactly the elements it is given. */
  lemma SortByMembers<T>(xs: seq<T>, key: T -> nat)
    ensures forall x :: x in SortBy(xs, key) <==> x in xs
  {
    forall x
      ensures x in SortBy(xs, key) <==> x in xs
    {
      assert x in SortBy(xs, key) <==> x in multiset(SortBy(xs, key));
      assert x in xs <==> x in multiset(xs);
    }
  }

  lemma SortedByTail<T>(s: seq<T>, key: T -> nat)
    requires s != [] && SortedBy(s, key)
    ensures SortedBy(s[1..], key)
    ensures forall x :: x in s[1..] ==> key(s[0]) <= key(x)
  {
    var t := s[1..];
    forall i, j | 0 <= i < j < |t|
      ensures key(t[i]) <= key(t[j])
    {
      assert t[i] == s[i + 1] && t[j] == s[j + 1];
    }
    forall x | x in t
      ensures key(s[0]) <= key(x)
    {
      var m :| 0 <= m < |t| && t[m] == x;
      assert s[m + 1] == x;
    }
  }

  lemma SortedByCons<T>(h: T, s: seq<T>, key: T -> nat)
    requires SortedBy(s, key)
    requires forall x :: x in s ==> key(h) <= key(x)
    ensures SortedBy([h] + s, key)
  {
    var r := [h] + s;
    forall i, j | 0 <= i < j < |r|
      ensures key(r[i]) <= key(r[j])
    {
      assert r[j] == s[j - 1] && r[j] in s;
      if i > 0 { assert r[i] == s[i - 1]; }
    }
  }

  lemma {:induction false} PendingSorted(sorted: seq<Case>, byCase: map<string, Session>)
    requires SortedBy(sorted, CaseKey)
    ensures SortedBy(PendingCases(sorted, byCase), CaseKey)
  {
    if sorted != [] {
      var t := sorted[1..];
      SortedByTail(sorted, CaseKey);
      PendingSorted(t, byCase);
      var rest := PendingCases(t, byCase);
      if sorted[0].id !in byCase {
        assert forall x :: x in rest ==> x in t;
        SortedByCons(sorted[0], rest, CaseKey);
        assert PendingCases(sorted, byCase) == [sorted[0]] + rest;
      } else {
        assert PendingCases(sorted, byCase) == [] + rest;
      }
    }
  }

  /** A case is pending exactly when the navigator has no session for its
      id, and the pending cases keep the label order. */
  lemma PendingIff(cases: seq<Case>, sessions: seq<Session>)
    ensures var pending := PendingCases(SortBy(cases, CaseKey), ByCase(sessions));
      && SortedBy(pending, CaseKey)
      && forall c :: c in pending <==> c in cases && forall s :: s in sessions ==> s.caseId != c.id
  {
    var sorted := SortBy(cases, CaseKey);
    SortBySorted(cases, CaseKey);
    PendingSorted(sorted, ByCase(sessions));
    forall c
      ensures c in PendingCases(sorted, ByCase(sessions)) <==>
              c in cases && forall s :: s in sessions ==> s.caseId != c.id
    {
      assert c in sorted <==> c in cases by {
        assert c in sorted <==> c in multiset(sorted);
        assert c in cases <==> c in multiset(cases);
      }
      NoSessionFor(sessions, c.id);
    }
  }

  /** A case id is missing from the map exactly when no session has it. */
  lemma NoSessionFor(sessions: seq<Session>, id: string)
    ensures id !in ByCase(sessions) <==> forall s :: s in sessions ==> s.caseId != id
  {
    if id in ByCase(sessions) {
      var k :| 0 <= k < |sessions| && sessions[k].caseId == id;
      assert sessions[k] in sessions;
    }
  }

  /** In-progress and completed are exactly the sessions with those
      statuses, in label order, sessions with equal keys in query order. */
  lemma StatusListsExact(sessions: seq<Session>, status: string, k: nat)
    ensures var r := SortBy(WithStatus(sessions, status), SessionKey);
      && multiset(r) == multiset(WithStatus(sessions, status))
      && SortedBy(r, SessionKey)
      && WithKey(r, SessionKey, k) == WithKey(WithStatus(sessions, status), SessionKey, k)
      && forall s :: s in r <==> s in sessions && s.status == status
  {
    var w := WithStatus(sessions, status);
    SortBySorted(w, SessionKey);
    SortByStable(w, SessionKey, k);
    forall s
      ensures s in SortBy(w, SessionKey) <==> s in w
    {
      assert s in SortBy(w, SessionKey) <==> s in multiset(SortBy(w, SessionKey));
      assert s in w <==> s in multiset(w);
    }
  }

  /** A session whose status is neither value appears in neither list. */
  lemma OtherStatusHidden(allCases: Option<seq<Case>>, sessions: seq<Session>, s: Session)
    requires s.status != "in_progress" && s.status != "completed"
    ensures var b := Partition(allCases, Some(sessions));
      s !in b.inProgress && s !in b.completed
  {
    StatusListsExact(sessions, "in_progress", 0);
    StatusListsExact(sessions, "completed", 0);
  }

  // ---------------------------------------------------------------------
  // The lines shown

  /** `narrative[:120] + "..."`. */
  function Summary(narrative: string): (r: string)
    ensures |r| == (if |narrative| < 120 then |narrative| else 120) + 3
    ensures EndsWith(r, "...")
    ensures StartsWith(narrative, r[..|r| - 3])
  {
    var n := if |narrative| < 120 then |narrative| else 120;
    assert (narrative[..n] + "...")[..n] == narrative[..n];
    narrative[..n] + "..."
  }

  /** The text an f-string shows for a label column: NULL reads "None". */
  function Shown(caseLabel: Option<string>): string {
    if caseLabel.Some? then caseLabel.value else "None"
  }

  /** The message of `None[:120]`. */
  const NotSubscriptable: string := "TypeError: 'NoneType' object is not subscriptable"

  /** The label and summary shown for an in-progress or completed session:
      the session's label unless it is empty or NULL, the case's otherwise
      ("" for an unlisted case); the case summary, or "Unknown case" when
      the case is not listed. A listed case whose summary is NULL makes the
      slice raise, and the page fails. */
  function SessionLine(sess: Session, byId: map<string, Case>): (r: Result<(string, string)>)
    ensures r.Err? <==> sess.caseId in byId && byId[sess.caseId].narrative.None?
    ensures r.Err? ==> r.msg == NotSubscriptable
    ensures r.Ok? && sess.caseId !in byId ==> r.value.1 == "Unknown case"
    ensures r.Ok? && sess.caseId in byId ==> r.value.1 == Summary(byId[sess.caseId].narrative.value)
    ensures r.Ok? && sess.caseLabel.Some? && sess.caseLabel.value != "" ==> r.value.0 == sess.caseLabel.value
    ensures r.Ok? && !(sess.caseLabel.Some? && sess.caseLabel.value != "") ==>
      r.value.0 == (if sess.caseId in byId then Shown(byId[sess.caseId].caseLabel) else "")
  {
    var found := sess.caseId in byId;
    if found && byId[sess.caseId].narrative.None? then Err(NotSubscriptable)
    else
      var shown :=
        if sess.caseLabel.Some? && sess.caseLabel.value != "" then sess.caseLabel.value
        else if found then Shown(byId[sess.caseId].caseLabel)
        else "";
      Ok((shown, if found then Summary(byId[sess.caseId].narrative.value) else "Unknown case"))
  }

  /** The label and summary shown for a pending case; a NULL summary makes
      the slice raise. */
  function PendingLine(c: Case): (r: Result<(string, string)>)
    ensures r.Err? <==> c.narrative.None?
    ensures r.Err? ==> r.msg == NotSubscriptable
    ensures r.Ok? ==> r.value == (Shown(c.caseLabel), Summary(c.narrative.value))
  {
    if c.narrative.None? then Err(NotSubscriptable)
    else Ok((Shown(c.caseLabel), Summary(c.narrative.value)))
  }

  /** Every pending id is listed in `cases_dict`, so the lookup at the
      start button's line never fails. */
  lemma PendingListed(allCases: Option<seq<Case>>, mySessions: Option<seq<Session>>)
    ensures var cases := if allCases.Some? then allCases.value else [];
      var b := Partition(allCases, mySessions);
      forall id :: id in b.pendingIds ==> id in ById(SortBy(cases, CaseKey))
  {
    var cases := if allCases.Some? then allCases.value else [];
    var sessions := if mySessions.Some? then mySessions.value else [];
    var sorted := SortBy(cases, CaseKey);
    var pending := PendingCases(sorted, ByCase(sessions));
    forall id | id in Ids(pending)
      ensures id in ById(sorted)
    {
      var k :| 0 <= k < |pending| && Ids(pending)[k] == id;
      assert pending[k] in sorted;
      var m :| 0 <= m < |sorted| && sorted[m] == pending[k];
    }
  }

  // ---------------------------------------------------------------------
  // The buttons

  /** The keys a button stores before the rerun opens the annotation
      page. */
  function Opened(state: State, sessionId: Json, caseId: string): State {
    state["current_session_id" := sessionId]["current_case_id" := JStr(caseId)]
         ["current_page" := JStr("annotation")]
  }

  /** "Resume" on an in-progress session: the annotation page opens on
      that session and its case, and nothing else in the session changes. */
  method Resume(session: SessionState, sess: Session)
    modifies session
    ensures session.entries == Opened(old(session.entries), JStr(sess.id), sess.caseId)
    ensures forall k :: k in old(session.entries) && k !in {"current_session_id", "current_case_id", "current_page"} ==>
      k in session.entries && session.entries[k] == old(session.entries)[k]
  {
    session.entries := session.entries["current_session_id" := JStr(sess.id)];
    session.entries := session.entries["current_case_id" := JStr(sess.caseId)];
    session.entries := session.entries["current_page" := JStr("annotation")];
  }

  /** The `evaluation_sessions` row "Start" inserts. */
  datatype NewSession = NewSession(caseId: string, caseLabel: Option<string>, navigatorId: Json,
                                   navigatorName: Json, status: string)

  /** The row for a pending case: its label (NULL when the case's is), the
      signed-in navigator's id and name ("Navigator" when no name is
      stored), status "in_progress". */
  function StartRow(c: Case, state: State): (r: NewSession)
    ensures r.caseId == c.id && r.status == "in_progress"
    ensures r.caseLabel == c.caseLabel
    ensures r.navigatorId == GetUserId(state)
    ensures "full_name" in state ==> r.navigatorName == state["full_name"]
    ensures "full_name" !in state ==> r.navigatorName == JStr("Navigator")
  {
    NewSession(c.id, c.caseLabel, GetUserId(state),
               MapGet(state, "full_name", JStr("Navigator")), "in_progress")
  }

  /** "Start" on a pending case: the row is inserted by `insert`, which
      yields the new row's id or the error raised (including an empty
      reply, where `data[0]` fails); on success the annotation page opens
      on the new session. The error is returned and the session kept. */
  method Start(session: SessionState, c: Case, insert: NewSession -> Result<Json>) returns (error: Option<string>)
    modifies session
    ensures var inserted := insert(StartRow(c, old(session.entries)));
      && (error.Some? <==> inserted.Err?)
      && (inserted.Err? ==> session.entries == old(session.entries) && error == Some(inserted.msg))
      && (inserted.Ok? ==> session.entries == Opened(old(session.entries), inserted.value, c.id))
  {
    var inserted := insert(StartRow(c, session.entries));
    if inserted.Err? {
      return Some(inserted.msg);
    }
    session.entries := Opened(session.entries, inserted.value, c.id);
    error := None;
  }

  /** Once a case is started, the next render lists it as in progress and
      no longer as pending. */
  lemma StartedCaseMoves(cases: seq<Case>, sessions: seq<Session>, c: Case, started: Session)
    requires started.caseId == c.id && started.status == "in_progress"
    ensures var b := Partition(Some(cases), Some(sessions + [started]));
      c.id !in b.pendingIds && started in b.inProgress
  {
    var all := sessions + [started];
    var pending := PendingCases(SortBy(cases, CaseKey), ByCase(all));
    assert all[|sessions|] == started;
    assert c.id in ByCase(all);
    forall k | 0 <= k < |pending|
      ensures Ids(pending)[k] != c.id
    {
      assert pending[k] in pending;
    }
    var inProgress := WithStatus(all, "in_progress");
    assert started in inProgress;
    assert multiset(SortBy(inProgress, SessionKey)) == multiset(inProgress);
    assert started in multiset(SortBy(inProgress, SessionKey));
  }
}
