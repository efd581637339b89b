/** The login page (app/pages/login.py): what the registration and
    sign-in forms do with the name and PIN typed in, and what an
    already signed-in user sees. */
module Login {
  import opened PyValues
  import opened Auth

  const FillAllFields: string := "Please fill in all fields."
  const PinNotFourDigits: string := "PIN must be exactly 4 digits."
  const EnterName: string := "Please enter your full name."
  const EnterValidPin: string := "Please enter a valid 4-digit PIN."
  const Registered: string := "Registration successful! Sign in with your name and PIN."

  /** `s.isdigit()` on ASCII text: non-empty and every character a digit. */
  predicate IsDigitString(s: string) {
    s != [] && forall k :: 0 <= k < |s| ==> IsDigit(s[k])
  }

  /** A PIN the forms accept: four digits. */
  predicate ValidPin(pin: string) {
    |pin| == 4 && forall k :: 0 <= k < |pin| ==> IsDigit(pin[k])
  }

  /** What a submitted form leads to: an error shown, or the call made with
      the values typed in. */
  datatype Decision = ShowError(message: string) | Call(fullName: string, pin: string)

  /** The registration form's checks: empty fields first, then the PIN's
      format. */
  function RegisterDecision(fullName: string, pin: string): (d: Decision)
    ensures d.Call? <==> fullName != "" && ValidPin(pin)
    ensures d.Call? ==> d == Call(fullName, pin)
    ensures fullName == "" || pin == "" ==> d == ShowError(FillAllFields)
    ensures fullName != "" && pin != "" && !ValidPin(pin) ==> d == ShowError(PinNotFourDigits)
  {
    if fullName == "" || pin == "" then ShowError(FillAllFields)
    else if |pin| != 4 || !IsDigitString(pin) then ShowError(PinNotFourDigits)
    else Call(fullName, pin)
  }

  /** The sign-in form's checks: the name first, then the PIN. */
  function SignInDecision(fullName: string, pin: string): (d: Decision)
    ensures d.Call? <==> fullName != "" && ValidPin(pin)
    ensures d.Call? ==> d == Call(fullName, pin)
    ensures fullName == "" ==> d == ShowError(EnterName)
    ensures fullName != "" && !ValidPin(pin) ==> d == ShowError(EnterValidPin)
  {
    if fullName == "" then ShowError(EnterName)
    else if pin == "" || |pin| != 4 || !IsDigitString(pin) then ShowError(EnterValidPin)
    else Call(fullName, pin)
  }

  /** An empty PIN is reported as a missing field, never as a format
      error. */
  lemma EmptyFieldsFirst(fullName: string)
    ensures RegisterDecision(fullName, "") == ShowError(FillAllFields)
    ensures RegisterDecision("", "12a") == ShowError(FillAllFields)
  {
  }

  /** Both forms accept exactly the same name-and-PIN pairs. */
  lemma FormsAgree(fullName: string, pin: string)
    ensures RegisterDecision(fullName, pin).Call? <==> SignInDecision(fullName, pin).Call?
  {
  }

  /** The message the registration form shows after submitting, with
      `sign_up`'s oracles given. */
  function RegisterMessage(fullName: string, pin: string, create: ((string, string)) -> CreateResponse,
                           insert: Profile -> Option<string>): (r: (bool, string))
    ensures !(fullName != "" && ValidPin(pin)) ==> !r.0
    ensures fullName != "" && ValidPin(pin) ==>
      (r.0 <==> SignUp(fullName, pin, create, insert).SignedUp?)
    ensures r.0 ==> r.1 == Registered
  {
    match RegisterDecision(fullName, pin)
    case ShowError(message) => (false, message)
    case Call(name, p) =>
      match SignUp(name, p, create, insert)
      case SignedUp => (true, Registered)
      case SignUpFailed(error) => (false, error)
  }

  /** What the page shows: the signed-in message alone, or the two forms. */
  datatype View = LoggedIn(message: string) | Forms

  /** `render` up to the forms: a signed-in user sees only the message
      naming them ("Navigator" when no name is stored). */
  function PageView(state: State): (v: View)
    ensures v.LoggedIn? <==> IsAuthenticated(state)
  {
    if IsAuthenticated(state) then
      LoggedIn("Logged in as " + Str(MapGet(state, "full_name", JStr("Navigator"))) +
               ". Please proceed to \"My Cases\" page.")
    else Forms
  }

  /** The sign-in form: `sign_in` runs only after both checks pass; a
      rejected form leaves the session as it was. Returns the error shown,
      or `None` when the page reruns signed in. */
  method SubmitSignIn(session: SessionState, fullName: string, pin: string,
                      signIn: ((string, string)) -> SignInResponse, setSessionRaises: Tokens -> bool,
                      profile: string -> Result<(string, string)>)
    returns (shown: Option<string>)
    modifies session
    ensures SignInDecision(fullName, pin).ShowError? ==>
      session.entries == old(session.entries) && shown == Some(SignInDecision(fullName, pin).message)
    ensures SignInDecision(fullName, pin).Call? ==>
      var (after, r) := SignInOutcome(old(session.entries), fullName, pin, signIn, setSessionRaises, profile);
      session.entries == after && (shown.None? <==> r.SignedIn?)
  {
    var d := SignInDecision(fullName, pin);
    if d.ShowError? {
      return Some(d.message);
    }
    var r := session.SignIn(fullName, pin, signIn, setSessionRaises, profile);
    if r.SignedIn? {
      shown := None;
    } else {
      shown := Some(r.error);
    }
  }
}
