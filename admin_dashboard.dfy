/** The navigator progress table of the admin dashboard
    (app/pages/admin_dashboard.py): for each navigator, how many of their
    sessions are completed or in progress and how many cases remain. */
module AdminDashboard {
  import opened PyValues

  /** A `profiles` row with role "navigator". */
  datatype Navigator = Navigator(id: string, fullName: string)

  /** An `evaluation_sessions` row as the dashboard selects it. */
  datatype SessionRef = SessionRef(navigatorId: string, status: string)

  /** One row of the progress table. */
  datatype ProgressRow = ProgressRow(navigator: string, completed: nat, inProgress: nat,
                                     remaining: int, progress: string)

  /** A session of navigator `navId` with exactly the status `status`. */
  predicate Matches(s: SessionRef, navId: string, status: string) {
    s.navigatorId == navId && s.status == status
  }

  /** `sum(1 for s in nav_sessions if s["status"] == status)`, where
      `nav_sessions` are the sessions of navigator `navId`. */
  function CountStatus(sessions: seq<SessionRef>, navId: string, status: string): (n: nat)
    ensures n <= |sessions|
    ensures n == 0 <==> forall k :: 0 <= k < |sessions| ==> !Matches(sessions[k], navId, status)
    ensures n == |sessions| <==> forall k :: 0 <= k < |sessions| ==> Matches(sessions[k], navId, status)
  {
    if sessions == [] then 0
    else
      var last := sessions[|sessions| - 1];
      CountStatus(sessions[..|sessions| - 1], navId, status)
        + (if Matches(last, navId, status) then 1 else 0)
  }

  /** The sessions of one navigator. */
  function CountNavigator(sessions: seq<SessionRef>, navId: string): (n: nat)
    ensures n <= |sessions|
    ensures n == 0 <==> forall k :: 0 <= k < |sessions| ==> sessions[k].navigatorId != navId
  {
    if sessions == [] then 0
    else
      CountNavigator(sessions[..|sessions| - 1], navId)
        + (if sessions[|sessions| - 1].navigatorId == navId then 1 else 0)
  }

  /** The two counts never exceed the navigator's sessions. */
  lemma {:induction false} CountsWithinSessions(sessions: seq<SessionRef>, navId: string)
    ensures CountStatus(sessions, navId, "completed") + CountStatus(sessions, navId, "in_progress")
            <= CountNavigator(sessions, navId)
  {
    if sessions != [] {
      CountsWithinSessions(sessions[..|sessions| - 1], navId);
    }
  }

  /** A session with any other status, or of another navigator, changes
      no count. */
  lemma OtherSessionIgnored(sessions: seq<SessionRef>, s: SessionRef, navId: string, status: string)
    requires s.navigatorId != navId || s.status != status
    ensures CountStatus(sessions + [s], navId, status) == CountStatus(sessions, navId, status)
  {
    assert (sessions + [s])[..|sessions|] == sessions;
  }

  /** A session of the navigator with the counted status adds one. */
  lemma MatchingSessionCounted(sessions: seq<SessionRef>, s: SessionRef, status: string)
    requires s.status == status
    ensures CountStatus(sessions + [s], s.navigatorId, status) == CountStatus(sessions, s.navigatorId, status) + 1
  {
    assert (sessions + [s])[..|sessions|] == sessions;
  }

  /** The row for one navigator: `remaining` is not clamped and
      `Progress` reads "completed/total". */
  function RowFor(nav: Navigator, sessions: seq<SessionRef>, totalCases: nat): (r: ProgressRow)
    ensures r.navigator == nav.fullName
    ensures r.completed == CountStatus(sessions, nav.id, "completed")
    ensures r.inProgress == CountStatus(sessions, nav.id, "in_progress")
    ensures r.remaining + r.completed + r.inProgress == totalCases
    ensures r.progress == NatToString(r.completed) + "/" + NatToString(totalCases)
  {
    var completed := CountStatus(sessions, nav.id, "completed");
    var inProgress := CountStatus(sessions, nav.id, "in_progress");
    ProgressRow(nav.fullName, completed, inProgress, totalCases - completed - inProgress,
                NatToString(completed) + "/" + NatToString(totalCases))
  }

  /** `total_cases_resp.count or 0`. */
  function TotalCases(count: Option<nat>): (r: nat)
    ensures count.None? ==> r == 0
    ensures count.Some? ==> r == count.value
  {
    if count.Some? then count.value else 0
  }

  /** The progress table: one row per navigator, in query order. */
  function ProgressTable(navigators: Option<seq<Navigator>>, sessions: Option<seq<SessionRef>>,
                         count: Option<nat>): (r: seq<ProgressRow>)
    ensures navigators.None? ==> r == []
    ensures navigators.Some? ==> |r| == |navigators.value|
    ensures navigators.Some? ==> forall k :: 0 <= k < |r| ==> r[k].navigator == navigators.value[k].fullName
  {
    var navs := if navigators.Some? then navigators.value else [];
    var list := if sessions.Some? then sessions.value else [];
    seq(|navs|, k requires 0 <= k < |navs| => RowFor(navs[k], list, TotalCases(count)))
  }

  /** The loop of `render` that appends one row per navigator. */
  method BuildProgress(navigators: Option<seq<Navigator>>, sessions: Option<seq<SessionRef>>,
                       count: Option<nat>) returns (progressData: seq<ProgressRow>)
    ensures progressData == ProgressTable(navigators, sessions, count)
  {
    var totalCases := TotalCases(count);
    var sessionList := if sessions.Some? then sessions.value else [];
    var navs := if navigators.Some? then navigators.value else [];
    progressData := [];
    for k := 0 to |navs|
      invariant |progressData| == k
      invariant forall j :: 0 <= j < k ==> progressData[j] == RowFor(navs[j], sessionList, totalCases)
    {
      progressData := progressData + [RowFor(navs[k], sessionList, totalCases)];
    }
  }

  /** More sessions than cases make `remaining` negative: one completed
      session and an empty case table. */
  lemma RemainingCanBeNegative()
    ensures ProgressTable(Some([Navigator("n1", "Ana")]), Some([SessionRef("n1", "completed")]), None)[0].remaining == -1
  {
    var sessions := [SessionRef("n1", "completed")];
    assert sessions[..0] == [];
    assert CountStatus(sessions, "n1", "completed") == 1;
    assert CountStatus(sessions, "n1", "in_progress") == 0;
    var nav := Navigator("n1", "Ana");
    assert TotalCases(None) == 0;
    var t := ProgressTable(Some([nav]), Some(sessions), None);
    assert |t| == 1;
    assert t[0] == RowFor(nav, sessions, 0);
  }

  /** A missing navigator list gives an empty table. */
  lemma NoNavigatorsNoRows(sessions: Option<seq<SessionRef>>, count: Option<nat>)
    ensures ProgressTable(None, sessions, count) == []
  {
  }
}
