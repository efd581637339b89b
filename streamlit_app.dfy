/** The entry point (streamlit_app.py): the page chosen from the session,
    the authentication gate in front of the navigator pages, and the
    sidebar's role line and buttons. */
module StreamlitApp {
  import opened PyValues
  import opened Auth

  /** The outcome of `_require_auth`: let through, or the warning or
      error shown instead of the page. */
  datatype Gate = Passed | SignInWarning | AccessDenied(message: string)

  /** `_require_auth(role)`. A required role that is `None` or empty
      checks nothing beyond being signed in. */
  function RequireAuth(state: State, role: Option<string>): (g: Gate)
    ensures g != Passed <==>
      (!IsAuthenticated(state) || (role.Some? && role.value != "" && GetRole(state) != JStr(role.value)))
    ensures !IsAuthenticated(state) ==> g == SignInWarning
    ensures g.AccessDenied? ==> g.message == "Access denied. " + Title(role.value) + " role required."
  {
    if !IsAuthenticated(state) then SignInWarning
    else if role.Some? && role.value != "" && GetRole(state) != JStr(role.value) then
      AccessDenied("Access denied. " + Title(role.value) + " role required.")
    else Passed
  }

  /** What the main area shows. */
  datatype Screen = LoginScreen | AdminScreen | NavigatorScreen | AnnotationScreen | Blocked(gate: Gate)

  /** The `if/elif` dispatch on `current_page`. */
  function Route(state: State, page: Json): (s: Screen)
    ensures s == AdminScreen <==> page == JStr("admin_dashboard")
    ensures s == NavigatorScreen <==>
      page == JStr("pn_dashboard") && IsAuthenticated(state) && GetRole(state) == JStr("navigator")
    ensures s == AnnotationScreen <==>
      page == JStr("annotation") && IsAuthenticated(state) && GetRole(state) == JStr("navigator")
    ensures s == LoginScreen <==>
      page !in {JStr("admin_dashboard"), JStr("pn_dashboard"), JStr("annotation")}
  {
    if page == JStr("login") then LoginScreen
    else if page == JStr("admin_dashboard") then AdminScreen
    else if page == JStr("pn_dashboard") then
      (var g := RequireAuth(state, Some("navigator")); if g == Passed then NavigatorScreen else Blocked(g))
    else if page == JStr("annotation") then
      (var g := RequireAuth(state, Some("navigator")); if g == Passed then AnnotationScreen else Blocked(g))
    else LoginScreen
  }

  /** The sidebar's role line: "Patient Navigator" for navigators, the
      title-cased role otherwise; a role that is not text has no
      `.title()`. */
  function RoleDisplay(role: Json): (r: Result<string>)
    ensures role == JStr("navigator") ==> r == Ok("Patient Navigator")
    ensures role.JStr? && role != JStr("navigator") ==> r == Ok(Title(role.s))
    ensures r.Err? <==> !role.JStr?
  {
    if role == JStr("navigator") then Ok("Patient Navigator")
    else if role.JStr? then Ok(Title(role.s))
    else Err("AttributeError: '" + TypeName(role) + "' object has no attribute 'title'")
  }

  /** The sidebar buttons, in order: the three page buttons always, the
      evaluation button while a session is open, logout when signed in. */
  function SidebarButtons(state: State): (r: seq<string>)
    ensures |r| >= 3 && r[..3] == ["Sign In / Register", "Admin Dashboard", "My Cases"]
    ensures "Current Evaluation" in r <==> Truthy(MapGet(state, "current_session_id", JNull))
    ensures "Logout" in r <==> IsAuthenticated(state)
  {
    ["Sign In / Register", "Admin Dashboard", "My Cases"]
      + (if Truthy(MapGet(state, "current_session_id", JNull)) then ["Current Evaluation"] else [])
      + (if IsAuthenticated(state) then ["Logout"] else [])
  }

  /** The page each sidebar button selects. */
  function ButtonPage(button: string): (r: Option<string>)
    ensures r.Some? <==> button in {"Sign In / Register", "Logout", "Admin Dashboard", "My Cases", "Current Evaluation"}
    ensures r.Some? ==> r.value in {"login", "admin_dashboard", "pn_dashboard", "annotation"}
  {
    if button == "Sign In / Register" || button == "Logout" then Some("login")
    else if button == "Admin Dashboard" then Some("admin_dashboard")
    else if button == "My Cases" then Some("pn_dashboard")
    else if button == "Current Evaluation" then Some("annotation")
    else None
  }

  /** One run of `main`: a missing page becomes "login", then the page is routed. */
  method Render(session: SessionState) returns (s: Screen)
    modifies session
    ensures "current_page" in old(session.entries) ==> session.entries == old(session.entries)
    ensures "current_page" !in old(session.entries) ==>
      session.entries == old(session.entries)["current_page" := JStr("login")]
    ensures s == Route(session.entries, session.entries["current_page"])
  {
    if "current_page" !in session.entries {
      session.entries := session.entries["current_page" := JStr("login")];
    }
    var page := session.entries["current_page"];
    s := Route(session.entries, page);
  }

  /** A first visit shows the login page. */
  lemma FirstVisitShowsLogin(state: State)
    requires "current_page" !in state
    ensures var after := state["current_page" := JStr("login")];
      Route(after, after["current_page"]) == LoginScreen
  {
  }

  /** A click on a sidebar button: the page it selects is stored, after
      signing out for the logout button. */
  method Press(session: SessionState, button: string)
    modifies session
    ensures ButtonPage(button).None? ==> session.entries == old(session.entries)
    ensures button == "Logout" ==>
      session.entries == SignedOut(old(session.entries))["current_page" := JStr("login")]
    ensures button != "Logout" && ButtonPage(button).Some? ==>
      session.entries == old(session.entries)["current_page" := JStr(ButtonPage(button).value)]
  {
    var target := ButtonPage(button);
    if target.None? {
      return;
    }
    if button == "Logout" {
      session.SignOut();
    }
    session.entries := session.entries["current_page" := JStr(target.value)];
  }

  /** After logging out the navigator pages are closed again. */
  lemma LogoutClosesNavigatorPages(state: State, page: Json)
    ensures var after := SignedOut(state)["current_page" := JStr("login")];
      Route(after, page) != NavigatorScreen && Route(after, page) != AnnotationScreen
  {
    SignedOutReadsFresh(state);
    var after := SignedOut(state)["current_page" := JStr("login")];
    assert MapGet(after, "authenticated", JBool(false)) == MapGet(SignedOut(state), "authenticated", JBool(false));
  }
}
