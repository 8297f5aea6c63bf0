/**
 * The login page: the form's two rules, the role that decides where a
 * successful login lands, and the submit sequence that stores the token.
 */
module Login {
  import opened Wrappers
  import opened Text
  import opened BrowserState
  import DashboardLayout

  datatype LoginValues = LoginValues(email: string, password: string)

  datatype LoginIssue = InvalidEmail | PasswordRequired

  /** The form's `errors`, one optional message per field. */
  datatype LoginErrors = LoginErrors(email: Option<LoginIssue>, password: Option<LoginIssue>)

  /**
   * The schema: the email must be an address (`isEmail` stands for the
   * schema library's email pattern) and the password must not be empty.
   */
  function Check(v: LoginValues, isEmail: string -> bool): (e: LoginErrors)
    ensures e.email == None || e.email == Some(InvalidEmail)
    ensures e.email.Some? <==> !isEmail(v.email)
    ensures e.password == None || e.password == Some(PasswordRequired)
    ensures e.password.Some? <==> v.password == ""
  {
    LoginErrors(
      if isEmail(v.email) then None else Some(InvalidEmail),
      if v.password == "" then Some(PasswordRequired) else None)
  }

  /** The form's `defaultValues` leave the password empty, so it must be typed before a submit. */
  lemma DefaultsNeedPassword(isEmail: string -> bool)
    ensures Check(LoginValues("", ""), isEmail).password == Some(PasswordRequired)
  {
  }

  /**
   * `data.token` as decoded from the JSON answer: the key may be missing,
   * hold `null`, or hold a string.
   */
  datatype TokenField = MissingToken | NullToken | StringToken(value: string)

  /**
   * The part of the decoded login answer the page reads: `data.token`, and
   * `data.user.role`, where a missing and a `null` role are alike (both are
   * falsy and fall back).
   */
  datatype LoginData = LoginData(token: TokenField, role: Option<string>)

  const HostRole := "host"
  const AttendeeRole := "attendee"

  /**
   * `data?.user?.role || (email.includes("host") ? "host" : "attendee")`:
   * a non-empty role from the server wins; an absent or empty one falls
   * back to a guess from the email, "host" exactly when the address
   * contains "host" anywhere.
   */
  function ResolveRole(serverRole: Option<string>, email: string): (role: string)
    ensures serverRole.Some? && serverRole.value != "" ==> role == serverRole.value
    ensures serverRole.None? || serverRole.value == "" ==>
      (role == HostRole <==> Includes(email, HostRole)) && (role == HostRole || role == AttendeeRole)
  {
    if serverRole.Some? && serverRole.value != "" then serverRole.value
    else if Includes(email, HostRole) then HostRole
    else AttendeeRole
  }

  /** The fallback reads "host" inside any word: a "ghost" address lands on the host dashboard. */
  lemma GhostAddressIsHost()
    ensures ResolveRole(None, "ghost@example.com") == HostRole
  {
    IncludesMiddle("g", HostRole, "@example.com");
    assert "g" + HostRole + "@example.com" == "ghost@example.com";
  }

  const HostHome := "/dashboard/host"
  const AttendeeHome := "/dashboard/attendee"

  /** The route pushed after login: the host dashboard exactly for the role "host", the attendee dashboard for every other role. */
  function RedirectFor(role: string): (route: string)
    ensures route == HostHome <==> role == HostRole
    ensures route == AttendeeHome <==> role != HostRole
  {
    if role == HostRole then HostHome else AttendeeHome
  }

  /** Every login lands on the first navigation item, "Dashboard", of the layout for the role it routes by. */
  lemma RedirectIsDashboardItem(role: string)
    ensures RedirectFor(role) ==
      DashboardLayout.NavItems(if role == HostRole then DashboardLayout.Host else DashboardLayout.Attendee)[0].href
  {
  }

  /** A role the server spells differently ("Host", "admin") lands on the attendee dashboard, whatever the email says. */
  lemma OtherServerRoleIsAttendee(role: string, email: string)
    requires role != "" && role != HostRole
    ensures RedirectFor(ResolveRole(Some(role), email)) == AttendeeHome
  {
  }

  /**
   * `localStorage.setItem("token", data.token)` stores the value converted
   * to a string: a missing token becomes "undefined" and a `null` one "null".
   */
  function StoredToken(token: TokenField): (stored: string)
    ensures token.StringToken? ==> stored == token.value
    ensures token == MissingToken ==> stored == "undefined"
    ensures token == NullToken ==> stored == "null"
  {
    match token
    case MissingToken => "undefined"
    case NullToken => "null"
    case StringToken(t) => t
  }

  /**
   * The dashboards' guard passes for whatever the login stored, unless the
   * server sent an empty token: an answer with a missing or `null` token
   * still counts as logged in.
   */
  lemma StoredTokenPassesGuard(token: TokenField)
    ensures HasToken(Some(StoredToken(token))) <==> token != StringToken("")
  {
  }

  class LoginPage {
    var isLoading: bool

    constructor ()
      ensures !isLoading
    {
      isLoading := false;
    }

    /**
     * `onSubmit`: a not-ok answer changes nothing but shows a toast; an ok
     * answer stores the token and pushes the route for the resolved role.
     * `isLoading` ends false on every path.
     */
    method OnSubmit(browser: Browser, values: LoginValues, response: Response<LoginData>) returns (outcome: Outcome)
      modifies this, browser
      ensures !isLoading
      ensures outcome == Succeeded <==> response.Ok?
      ensures outcome != Unauthenticated
      ensures response.NotOk? ==> browser.token == old(browser.token) && browser.history == old(browser.history)
      ensures response.Ok? ==>
        && browser.token == Some(StoredToken(response.body.token))
        && browser.history == old(browser.history) + [RedirectFor(ResolveRole(response.body.role, values.email))]
    {
      isLoading := true;
      if response.NotOk? {
        outcome := Failed;
      } else {
        var data := response.body;
        var role := ResolveRole(data.role, values.email);
        browser.token := Some(StoredToken(data.token));
        browser.history := browser.history + [RedirectFor(role)];
        outcome := Succeeded;
      }
      isLoading := false;
    }
  }
}
