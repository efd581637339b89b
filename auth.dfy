/** Name-and-PIN authentication and the session-state helpers
    (app/auth.py). The authentication service and the profiles table are
    oracles; Streamlit's session state is a map from keys to values held by
    a `SessionState` object. */
module Auth {
  import opened PyValues

  // ---------------------------------------------------------------------
  // Credentials

  const EmailDomain: string := "@annotationplatform.com"

  /** `full_name.strip().lower().replace(" ", ".")`. */
  function CleanName(fullName: string): (r: string)
    ensures forall k :: 0 <= k < |r| ==> r[k] != ' '
  {
    NoSpaceLeft(Lower(Strip(fullName)));
    ReplaceAll(Lower(Strip(fullName)), " ", ".")
  }

  /** `_name_pin_to_email`: the cleaned name, a dot, the PIN and the fixed
      domain; the part before the PIN holds no space. */
  function NamePinToEmail(fullName: string, pin: string): (r: string)
    ensures EndsWith(r, "." + pin + EmailDomain)
    ensures forall k :: 0 <= k < |r| - |pin| - |EmailDomain| - 1 ==> r[k] != ' '
  {
    var clean := CleanName(fullName);
    var r := clean + "." + pin + EmailDomain;
    assert r == clean + ("." + pin + EmailDomain);
    assert r[|clean|..] == "." + pin + EmailDomain;
    assert forall k :: 0 <= k < |clean| ==> r[k] == clean[k];
    r
  }

  /** `f"pin{pin}xx"`; the PIN can be read back from it. */
  function Password(pin: string): (r: string)
    ensures StartsWith(r, "pin") && EndsWith(r, "xx")
    ensures |r| == |pin| + 5 && r[3..|r| - 2] == pin
  {
    var r := "pin" + pin + "xx";
    assert r[..3] == "pin" && r[|r| - 2..] == "xx" && r[3..|r| - 2] == pin;
    r
  }

  /** The pair sent to the authentication service, the same for
      registration and sign-in. */
  function Credentials(fullName: string, pin: string): (string, string) {
    (NamePinToEmail(fullName, pin), Password(pin))
  }

  /** Different PINs give different passwords. */
  lemma PasswordInjective(p1: string, p2: string)
    requires p1 != p2
    ensures Password(p1) != Password(p2)
  {
  }

  lemma {:induction false} NoSpaceLeft(s: string)
    ensures forall k :: 0 <= k < |ReplaceAll(s, " ", ".")| ==> ReplaceAll(s, " ", ".")[k] != ' '
    decreases |s|
  {
    if s != [] {
      NoSpaceLeft(s[1..]);
      if !StartsWith(s, " ") {
        assert s[..1] == [s[0]];
      }
    }
  }

  /** Replacing a one-character pattern works piece by piece. */
  lemma {:induction false} ReplaceCharConcat(a: string, b: string, c: char, q: string)
    ensures ReplaceAll(a + b, [c], q) == ReplaceAll(a, [c], q) + ReplaceAll(b, [c], q)
    decreases |a|
  {
    if a == [] {
      assert a + b == b;
    } else {
      var ab := a + b;
      var head := if a[0] == c then q else [a[0]];
      var ra, rb := ReplaceAll(a[1..], [c], q), ReplaceAll(b, [c], q);
      assert ReplaceAll(ab, [c], q) == head + (ra + rb) by {
        assert ab[0] == a[0] && ab[1..] == a[1..] + b;
        ReplaceCharStep(ab, c, q);
        ReplaceCharConcat(a[1..], b, c, q);
      }
      assert ReplaceAll(a, [c], q) == head + ra by {
        ReplaceCharStep(a, c, q);
      }
    }
  }

  /** One step of a one-character replacement. */
  lemma ReplaceCharStep(s: string, c: char, q: string)
    requires s != []
    ensures ReplaceAll(s, [c], q) == (if s[0] == c then q else [s[0]]) + ReplaceAll(s[1..], [c], q)
  {
    assert StartsWith(s, [c]) <==> s[0] == c by {
      assert s[..1] == [s[0]];
    }
  }

  lemma {:induction false} LStripLower(s: string)
    ensures LStrip(Lower(s)) == Lower(LStrip(s))
    decreases |s|
  {
    if s != [] {
      assert Lower(s)[1..] == Lower(s[1..]);
      assert IsSpace(Lower(s)[0]) <==> IsSpace(s[0]);
      LStripLower(s[1..]);
    }
  }

  lemma {:induction false} RStripLower(s: string)
    ensures RStrip(Lower(s)) == Lower(RStrip(s))
    decreases |s|
  {
    if s != [] {
      var init := s[..|s| - 1];
      var ls := Lower(s);
      assert ls[..|s| - 1] == Lower(init);
      assert IsSpace(ls[|s| - 1]) <==> IsSpace(s[|s| - 1]);
      RStripLower(init);
      if IsSpace(s[|s| - 1]) {
        assert RStrip(ls) == RStrip(Lower(init));
        assert RStrip(s) == RStrip(init);
      } else {
        assert RStrip(ls) == ls;
        assert RStrip(s) == s;
      }
    }
  }

  lemma LowerIdempotent(s: string)
    ensures Lower(Lower(s)) == Lower(s)
  {
  }

  /** Names that differ only in letter case give the same email. */
  lemma EmailIgnoresCase(a: string, b: string, pin: string)
    requires Lower(a) == Lower(b)
    ensures NamePinToEmail(a, pin) == NamePinToEmail(b, pin)
  {
    LStripLower(a);
    RStripLower(LStrip(a));
    LStripLower(b);
    RStripLower(LStrip(b));
  }

  /** `s` is its leading whitespace, its stripped core and its trailing
      whitespace. */
  lemma StripSplit(s: string) returns (w1: string, w2: string)
    ensures AllSpace(w1) && AllSpace(w2) && s == w1 + Strip(s) + w2
  {
    LStripRemovesSpace(s);
    var l := LStrip(s);
    RStripRemovesSpace(l);
    var r := RStrip(l);
    w1 := s[..|s| - |l|];
    w2 := l[|r|..];
    assert l == r + w2;
    assert s == w1 + l;
  }

  /** Names that differ only in surrounding whitespace give the same
      email. */
  lemma EmailIgnoresOuterSpace(w1: string, name: string, w2: string, pin: string)
    requires AllSpace(w1) && AllSpace(w2)
    ensures NamePinToEmail(w1 + name + w2, pin) == NamePinToEmail(name, pin)
  {
    StripOuterSpace(w1, name, w2);
  }

  lemma StripOuterSpace(w1: string, name: string, w2: string)
    requires AllSpace(w1) && AllSpace(w2)
    ensures Strip(w1 + name + w2) == Strip(name)
  {
    var u1, u2 := StripSplit(name);
    var core := Strip(name);
    StripTrimmed(name);
    assert AllSpace(w1 + u1) && AllSpace(u2 + w2);
    assert w1 + name + w2 == (w1 + u1) + core + (u2 + w2);
    StripAround(w1 + u1, core, u2 + w2);
  }

  /** One separator between two words that are not whitespace at the
      outer ends: the words are cleaned apart and the separator becomes a
      dot. */
  lemma CleanJoined(x: string, sep: char, y: string)
    requires sep == ' ' || sep == '.'
    requires x != [] && !IsSpace(x[0]) && y != [] && !IsSpace(y[|y| - 1])
    ensures CleanName(x + [sep] + y) == ReplaceAll(Lower(x), " ", ".") + "." + ReplaceAll(Lower(y), " ", ".")
  {
    var joined := x + [sep] + y;
    assert joined[0] == x[0] && joined[|joined| - 1] == y[|y| - 1];
    StripOfTrimmed(joined);
    LowerJoined(x, sep, y);
    ReplaceJoined(Lower(x), sep, Lower(y));
  }

  lemma LowerJoined(x: string, sep: char, y: string)
    requires sep == ' ' || sep == '.'
    ensures Lower(x + [sep] + y) == Lower(x) + [sep] + Lower(y)
  {
    LowerConcat(x + [sep], y);
    LowerConcat(x, [sep]);
    assert Lower([sep]) == [sep];
  }

  lemma ReplaceJoined(lx: string, sep: char, ly: string)
    requires sep == ' ' || sep == '.'
    ensures ReplaceAll(lx + [sep] + ly, " ", ".") == ReplaceAll(lx, " ", ".") + "." + ReplaceAll(ly, " ", ".")
  {
    ReplaceCharConcat(lx + [sep], ly, ' ', ".");
    ReplaceCharConcat(lx, [sep], ' ', ".");
    assert ReplaceAll([sep], " ", ".") == ".";
  }

  /** "first last" and "first.last" give the same email, when the
      separator is not at an outer end. */
  lemma EmailSpaceOrDot(x: string, y: string, pin: string)
    requires x != [] && !IsSpace(x[0]) && y != [] && !IsSpace(y[|y| - 1])
    ensures NamePinToEmail(x + " " + y, pin) == NamePinToEmail(x + "." + y, pin)
  {
    CleanJoined(x, ' ', y);
    CleanJoined(x, '.', y);
  }

  // ---------------------------------------------------------------------
  // sign_up

  const DuplicateMessage: string := "That name + PIN combination is already registered."
  const NoUserMessage: string := "Sign-up failed. Please try a different PIN."

  /** What `create_user` does with the credentials: a user with an id, a
      response without a user, or an exception with its text. */
  datatype CreateResponse = CreatedUser(userId: string) | NoUser | CreateRaised(message: string)

  /** The `profiles` row written for a new navigator. */
  datatype Profile = Profile(id: string, role: string, fullName: string, pin: string)

  datatype SignUpResult = SignedUp | SignUpFailed(error: string)

  /** The lower-cased text of an exception mentions an existing
      registration. */
  predicate MentionsRegistration(message: string) {
    Contains(Lower(message), "already been registered") || Contains(Lower(message), "already registered")
  }

  /** The error shown for an exception: the fixed duplicate message when
      the text mentions an existing registration, the text itself
      otherwise. */
  function SignUpError(message: string): (r: string)
    ensures MentionsRegistration(message) ==> r == DuplicateMessage
    ensures !MentionsRegistration(message) ==> r == message
  {
    if MentionsRegistration(message) then DuplicateMessage else message
  }

  /** `sign_up`, with the user-creation call and the profile insert (which
      returns the text of the exception it raised, if any) given. */
  function SignUp(fullName: string, pin: string, create: ((string, string)) -> CreateResponse,
                  insert: Profile -> Option<string>): (r: SignUpResult)
    ensures r.SignedUp? <==>
      (create(Credentials(fullName, pin)).CreatedUser?
       && insert(Profile(create(Credentials(fullName, pin)).userId, "navigator", fullName, pin)).None?)
    ensures create(Credentials(fullName, pin)).NoUser? ==> r == SignUpFailed(NoUserMessage)
    ensures create(Credentials(fullName, pin)).CreateRaised? ==>
      r == SignUpFailed(SignUpError(create(Credentials(fullName, pin)).message))
  {
    match create(Credentials(fullName, pin))
    case CreateRaised(message) => SignUpFailed(SignUpError(message))
    case NoUser => SignUpFailed(NoUserMessage)
    case CreatedUser(id) =>
      match insert(Profile(id, "navigator", fullName, pin))
      case Some(message) => SignUpFailed(SignUpError(message))
      case None => SignedUp
  }

  /** Text without capital letters is its own lower case. */
  lemma LowerNoUpper(t: string)
    requires forall k :: 0 <= k < |t| ==> !IsUpper(t[k])
    ensures Lower(t) == t
  {
  }

  /** A phrase already in lower case is found in the lowered text around
      it. */
  lemma LoweredPhraseFound(a: string, t: string, b: string)
    requires Lower(t) == t
    ensures Contains(Lower(a + t + b), t)
  {
    LowerConcat(a + t, b);
    LowerConcat(a, t);
    ContainsAt(Lower(a), t, Lower(b));
  }

  /** The service's duplicate-email text is recognised whatever surrounds
      it. */
  lemma DuplicateRecognised(a: string, b: string)
    ensures MentionsRegistration(a + "already registered" + b)
  {
    PhraseIsLower();
    LoweredPhraseFound(a, "already registered", b);
  }

  lemma PhraseIsLower()
    ensures Lower("already registered") == "already registered"
  {
    LowerNoUpper("already registered");
  }

  /** Whether a message counts as a duplicate does not depend on its
      letter case. */
  lemma DuplicateIgnoresCase(m1: string, m2: string)
    requires Lower(m1) == Lower(m2)
    ensures MentionsRegistration(m1) <==> MentionsRegistration(m2)
  {
  }

  // ---------------------------------------------------------------------
  // Session state

  type State = map<string, Json>

  /** `is_authenticated()`: the stored value's truth, False when absent. */
  predicate IsAuthenticated(state: State)
    ensures "authenticated" !in state ==> !IsAuthenticated(state)
    ensures "authenticated" in state && state["authenticated"] == JBool(true) ==> IsAuthenticated(state)
  {
    Truthy(MapGet(state, "authenticated", JBool(false)))
  }

  /** `get_role()`. */
  function GetRole(state: State): (r: Json)
    ensures "role" !in state ==> r == JStr("")
    ensures "role" in state ==> r == state["role"]
  {
    MapGet(state, "role", JStr(""))
  }

  /** `get_user_id()`. */
  function GetUserId(state: State): (r: Json)
    ensures "user_id" !in state ==> r == JStr("")
    ensures "user_id" in state ==> r == state["user_id"]
  {
    MapGet(state, "user_id", JStr(""))
  }

  /** A fresh session: not authenticated, empty role and user id. */
  lemma Defaults()
    ensures !IsAuthenticated(map[]) && GetRole(map[]) == JStr("") && GetUserId(map[]) == JStr("")
  {
  }

  /** The keys `sign_out` pops. */
  const SignOutKeys: seq<string> := ["access_token", "refresh_token", "user_id", "role",
    "full_name", "authenticated", "current_page", "current_session_id", "current_case_id"]

  /** The session after `sign_out`: exactly the listed keys removed,
      everything else as it was. */
  function SignedOut(state: State): (r: State)
    ensures forall k :: k in r <==> k in state && k !in SignOutKeys
    ensures forall k :: k in r ==> r[k] == state[k]
  {
    map k | k in state && k !in SignOutKeys :: state[k]
  }

  /** Signing out twice is signing out once. */
  lemma SignOutIdempotent(state: State)
    ensures SignedOut(SignedOut(state)) == SignedOut(state)
  {
  }

  /** After signing out the session reads as a fresh one. */
  lemma SignedOutReadsFresh(state: State)
    ensures !IsAuthenticated(SignedOut(state))
    ensures GetRole(SignedOut(state)) == JStr("") && GetUserId(SignedOut(state)) == JStr("")
  {
    assert "authenticated" in SignOutKeys && "role" in SignOutKeys && "user_id" in SignOutKeys;
  }

  // ---------------------------------------------------------------------
  // sign_in

  datatype Tokens = Tokens(accessToken: string, refreshToken: string)

  /** What `sign_in_with_password` does with the credentials: an exception,
      or a response whose user (its id) and session may each be missing. */
  datatype SignInResponse = SignInRaised | Response(user: Option<string>, session: Option<Tokens>)

  datatype SignInResult = SignedIn(role: string) | SignInFailed(error: string)

  const InvalidMessage: string := "Invalid name or PIN."
  const RetryMessage: string := "Invalid name or PIN. Please try again."

  /** `sign_in` on the session `state`, with the service call, whether
      `set_session` raises, and the profile lookup (role and full name, or
      the exception of `.single()`) given. The tokens and the user id are
      written before the calls that may still raise, so a failure after
      them leaves them behind. */
  function SignInOutcome(state: State, fullName: string, pin: string,
                         signIn: ((string, string)) -> SignInResponse, setSessionRaises: Tokens -> bool,
                         profile: string -> Result<(string, string)>): (r: (State, SignInResult))
    ensures state.Keys <= r.0.Keys
    ensures forall k :: k in state && k !in {"access_token", "refresh_token", "user_id", "role", "full_name", "authenticated"} ==>
      r.0[k] == state[k]
    ensures r.1.SignInFailed? ==> ("authenticated" in r.0 <==> "authenticated" in state)
    ensures r.1.SignInFailed? && "authenticated" in state ==> r.0["authenticated"] == state["authenticated"]
  {
    match signIn(Credentials(fullName, pin))
    case SignInRaised => (state, SignInFailed(RetryMessage))
    case Response(user, session) =>
      if user.None? || session.None? then (state, SignInFailed(InvalidMessage))
      else
        var tokens := session.value;
        var written := state["access_token" := JStr(tokens.accessToken)]
                            ["refresh_token" := JStr(tokens.refreshToken)]
                            ["user_id" := JStr(user.value)];
        if setSessionRaises(tokens) then (written, SignInFailed(RetryMessage))
        else
          match profile(user.value)
          case Err(_) => (written, SignInFailed(RetryMessage))
          case Ok((role, name)) =>
            (written["role" := JStr(role)]["full_name" := JStr(name)]["authenticated" := JBool(true)],
             SignedIn(role))
  }

  /** `authenticated` is set only on success, and then the role and the
      user id are those of the signed-in user. */
  lemma SignInAuthenticatesOnSuccess(state: State, fullName: string, pin: string,
                                     signIn: ((string, string)) -> SignInResponse, setSessionRaises: Tokens -> bool,
                                     profile: string -> Result<(string, string)>)
    ensures var (after, r) := SignInOutcome(state, fullName, pin, signIn, setSessionRaises, profile);
      && (r.SignedIn? ==> IsAuthenticated(after) && GetRole(after) == JStr(r.role)
                          && GetUserId(after) == JStr(signIn(Credentials(fullName, pin)).user.value))
      && (r.SignInFailed? ==> MapGet(after, "authenticated", JBool(false)) == MapGet(state, "authenticated", JBool(false)))
  {
  }

  /** Every failure shows one of the two generic messages; an exception
      always shows the same one. */
  lemma SignInFailuresGeneric(state: State, fullName: string, pin: string,
                              signIn: ((string, string)) -> SignInResponse, setSessionRaises: Tokens -> bool,
                              profile: string -> Result<(string, string)>)
    ensures var r := SignInOutcome(state, fullName, pin, signIn, setSessionRaises, profile).1;
      && (r.SignInFailed? ==> r.error == InvalidMessage || r.error == RetryMessage)
      && (signIn(Credentials(fullName, pin)).SignInRaised? ==> r == SignInFailed(RetryMessage))
      && (r.SignInFailed? && r.error == InvalidMessage ==> signIn(Credentials(fullName, pin)).Response?)
  {
  }

  /** Streamlit's `st.session_state`. */
  class SessionState {
    var entries: State

    constructor (initial: State)
      ensures entries == initial
    {
      entries := initial;
    }

    /** `sign_out`: the service call's exception is swallowed, then each
        listed key is popped. */
    method SignOut()
      modifies this
      ensures entries == SignedOut(old(entries))
    {
      for i := 0 to |SignOutKeys|
        invariant entries == map k | k in old(entries) && k !in SignOutKeys[..i] :: old(entries)[k]
      {
        assert SignOutKeys[..i + 1] == SignOutKeys[..i] + [SignOutKeys[i]];
        entries := entries - {SignOutKeys[i]};
      }
      assert SignOutKeys[..|SignOutKeys|] == SignOutKeys;
    }

    /** `sign_in`, writing the session fields step by step. */
    method SignIn(fullName: string, pin: string, signIn: ((string, string)) -> SignInResponse,
                  setSessionRaises: Tokens -> bool, profile: string -> Result<(string, string)>)
      returns (r: SignInResult)
      modifies this
      ensures (entries, r) == SignInOutcome(old(entries), fullName, pin, signIn, setSessionRaises, profile)
    {
      var response := signIn(Credentials(fullName, pin));
      if response.SignInRaised? {
        return SignInFailed(RetryMessage);
      }
      if response.user.None? || response.session.None? {
        return SignInFailed(InvalidMessage);
      }
      var tokens := response.session.value;
      var userId := response.user.value;
      entries := entries["access_token" := JStr(tokens.accessToken)];
      entries := entries["refresh_token" := JStr(tokens.refreshToken)];
      entries := entries["user_id" := JStr(userId)];
      if setSessionRaises(tokens) {
        return SignInFailed(RetryMessage);
      }
      var found := profile(userId);
      if found.Err? {
        return SignInFailed(RetryMessage);
      }
      var (role, name) := found.value;
      entries := entries["role" := JStr(role)];
      entries := entries["full_name" := JStr(name)];
      entries := entries["authenticated" := JBool(true)];
      r := SignedIn(role);
    }
  }
}
