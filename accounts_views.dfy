/**
 The request handlers of the `accounts` application: signup, login with
 routing by user type, the guarded patient and doctor dashboards, and
 logout. Each handler answers with a response and may queue one message
 for the user; login and logout change who the request is authenticated as.

 The decisions are pure functions (`LoginRoute`, `Guard`, `GuardOutcome`);
 the handlers are methods of `Client`, whose fields are the user the client's
 session is authenticated as and the messages queued for it and not yet
 shown, and each is proved against those functions.
 */
module Views {
  import opened Wrappers
  import opened Models

  /** The level a message is queued with: `messages.success`, `messages.error` or `messages.info`. */
  datatype Level = Success | Error | Info

  datatype Message = Message(level: Level, text: string)

  /** The URL names of the `accounts` namespace that the handlers redirect to. */
  datatype UrlName = LoginUrl | PatientDashboardUrl | DoctorDashboardUrl

  datatype Response =
    | Redirect(to: UrlName)
      /** A page rendered from a template: a form shown again with its errors, or a dashboard. */
    | Render(template: string)
      /** The response the framework's login view builds on its own (its "next" or configured redirect). */
    | LoginViewDefault
      /** The redirect `login_required` sends an anonymous caller to (the configured login URL). */
    | LoginRequired

  const SignupTemplate: string := "accounts/signup.html"
  const LoginTemplate: string := "accounts/login.html"

  const SignupSucceeded: Message :=
    Message(Success, "Account created successfully! Please login with your credentials.")
  const SignupFailed: Message := Message(Error, "Please correct the errors below and try again.")
  const LoginFailed: Message := Message(Error, "Invalid username or password. Please try again.")
  const LoggedOut: Message := Message(Info, "You have been logged out successfully.")

  /** What a handler decides: its response and the message it queues, if any. */
  datatype Outcome = Outcome(response: Response, message: Option<Message>)

  /** The messages an optional message adds to the queue. */
  function Queued(m: Option<Message>): seq<Message> {
    match m
    case Some(msg) => [msg]
    case None => []
  }

  /**
   Where a successful login sends the user, and how it greets them: patients
   to their dashboard by first name, doctors to theirs by last name, and any
   other user type to the login view's own response without a greeting.
   */
  function LoginRoute(u: User): (o: Outcome)
    ensures o.response == Redirect(PatientDashboardUrl) <==> u.userType == PatientType
    ensures o.response == Redirect(DoctorDashboardUrl) <==> u.userType == DoctorType
    ensures o.response == LoginViewDefault <==> !IsUserTypeChoice(u.userType)
    ensures o.message.Some? <==> IsUserTypeChoice(u.userType)
    ensures u.userType == PatientType ==> o.message == Some(Message(Success, "Welcome, " + u.firstName + "!"))
    ensures u.userType == DoctorType ==> o.message == Some(Message(Success, "Welcome, Dr. " + u.lastName + "!"))
  {
    if u.userType == PatientType then
      Outcome(Redirect(PatientDashboardUrl), Some(Message(Success, "Welcome, " + u.firstName + "!")))
    else if u.userType == DoctorType then
      Outcome(Redirect(DoctorDashboardUrl), Some(Message(Success, "Welcome, Dr. " + u.lastName + "!")))
    else
      Outcome(LoginViewDefault, None)
  }

  /** The two guarded dashboards. */
  datatype Area = PatientArea | DoctorArea

  /** The user type an area admits. */
  function RequiredUserType(a: Area): (t: string)
    ensures t == PatientType <==> a == PatientArea
    ensures t == DoctorType <==> a == DoctorArea
  {
    match a
    case PatientArea => PatientType
    case DoctorArea => DoctorType
  }

  /** How the denial message names the users an area is for. */
  function Audience(a: Area): (s: string)
    ensures s == RequiredUserType(a) + "s"
  {
    match a
    case PatientArea => "patients"
    case DoctorArea => "doctors"
  }

  function AreaUrl(a: Area): UrlName {
    match a
    case PatientArea => PatientDashboardUrl
    case DoctorArea => DoctorDashboardUrl
  }

  function AreaTemplate(a: Area): string {
    match a
    case PatientArea => "accounts/patient_dashboard.html"
    case DoctorArea => "accounts/doctor_dashboard.html"
  }

  function AccessDenied(a: Area): Message {
    Message(Error, "Access denied. This area is for " + Audience(a) + " only.")
  }

  datatype DenyReason = NotLoggedIn | WrongRole

  datatype Decision = Allow | Deny(reason: DenyReason)

  /**
   The dashboard guard, one definition for both dashboards: an anonymous
   caller is turned away before the user type is looked at, an
   authenticated caller of another user type is turned away as the wrong
   role, and only a caller of the area's own user type is let in.
   */
  function Guard(area: Area, session: Option<User>): (d: Decision)
    ensures session.None? ==> d == Deny(NotLoggedIn)
    ensures d == Allow <==> session.Some? && session.value.userType == RequiredUserType(area)
    ensures d == Deny(WrongRole) <==> session.Some? && session.value.userType != RequiredUserType(area)
  {
    match session
    case None => Deny(NotLoggedIn)
    case Some(u) => if u.userType != RequiredUserType(area) then Deny(WrongRole) else Allow
  }

  /**
   What a dashboard request answers: the dashboard when the guard allows,
   otherwise a redirect to login, with an error naming the area's users
   only when the caller was logged in as the wrong user type.
   */
  function GuardOutcome(area: Area, session: Option<User>): (o: Outcome)
    ensures o.response == Render(AreaTemplate(area)) <==> Guard(area, session) == Allow
    ensures o.response == Redirect(LoginUrl) <==> Guard(area, session).Deny?
    ensures o.message.Some? <==> Guard(area, session) == Deny(WrongRole)
    ensures o.message.Some? ==>
      o.message.value == Message(Error, "Access denied. This area is for " + RequiredUserType(area) + "s only.")
  {
    match Guard(area, session)
    case Allow => Outcome(Render(AreaTemplate(area)), None)
    case Deny(NotLoggedIn) => Outcome(Redirect(LoginUrl), None)
    case Deny(WrongRole) => Outcome(Redirect(LoginUrl), Some(AccessDenied(area)))
  }

  /** No session is let into both dashboards. */
  lemma GuardAdmitsAtMostOneArea(session: Option<User>)
    ensures !(Guard(PatientArea, session) == Allow && Guard(DoctorArea, session) == Allow)
  {
  }

  /**
   An authenticated user is let into some dashboard exactly when their user
   type is one of the declared choices (and then, by the lemma above, into
   exactly one).
   */
  lemma GuardAdmitsDeclaredUserTypes(u: User)
    ensures IsUserTypeChoice(u.userType) <==> Guard(PatientArea, Some(u)) == Allow || Guard(DoctorArea, Some(u)) == Allow
  {
  }

  /** A user of a declared user type is greeted on login and let into exactly one dashboard. */
  lemma DeclaredUserTypeRoutedToOneArea(u: User)
    requires IsUserTypeChoice(u.userType)
    ensures LoginRoute(u).message.Some?
    ensures Guard(PatientArea, Some(u)) == Allow <==> Guard(DoctorArea, Some(u)) != Allow
  {
  }

  /** A successful login redirects to a dashboard exactly when the guard of that dashboard lets the user in. */
  lemma LoginLandsWhereGuardAdmits(u: User, a: Area)
    ensures LoginRoute(u).response == Redirect(AreaUrl(a)) <==> Guard(a, Some(u)) == Allow
  {
  }

  /** The destination of a login depends on the user type alone, never on names or other fields. */
  lemma LoginDestinationDependsOnUserTypeOnly(u: User, w: User)
    requires u.userType == w.userType
    ensures LoginRoute(u).response == LoginRoute(w).response
    ensures LoginRoute(u).message.Some? == LoginRoute(w).message.Some?
  {
  }

  /**
   A client's view of the site across successive requests: the user its
   session is authenticated as and the messages queued for it and not yet
   shown.
   */
  class Client {
    /** `request.user`: `Some` for an authenticated user, `None` for the anonymous user. */
    var user: Option<User>
    /** The messages queued so far, oldest first. */
    var messages: seq<Message>

    constructor (user: Option<User>)
      ensures this.user == user && messages == []
    {
      this.user := user;
      messages := [];
    }

    /** `SignupView.form_valid`: the account is created, the caller's session is unchanged, and the caller is sent to login. */
    method SignupFormValid() returns (r: Response)
      modifies this
      ensures user == old(user)
      ensures messages == old(messages) + [SignupSucceeded]
      ensures r == Redirect(LoginUrl)
    {
      r := Redirect(LoginUrl);
      messages := messages + [SignupSucceeded];
    }

    /** `SignupView.form_invalid`: the form is shown again with a request to correct it. */
    method SignupFormInvalid() returns (r: Response)
      modifies this
      ensures user == old(user)
      ensures messages == old(messages) + [SignupFailed]
      ensures r == Render(SignupTemplate)
    {
      messages := messages + [SignupFailed];
      r := Render(SignupTemplate);
    }

    /**
     `CustomLoginView.form_valid`: the framework logs the verified user in,
     then the user type picks the destination and the greeting.
     */
    method LoginFormValid(account: User) returns (r: Response)
      modifies this
      ensures user == Some(account)
      ensures r == LoginRoute(account).response
      ensures messages == old(messages) + Queued(LoginRoute(account).message)
    {
      user := Some(account);
      r := LoginViewDefault;
      var u := user.value;
      if u.userType == PatientType {
        messages := messages + [Message(Success, "Welcome, " + u.firstName + "!")];
        r := Redirect(PatientDashboardUrl);
      } else if u.userType == DoctorType {
        messages := messages + [Message(Success, "Welcome, Dr. " + u.lastName + "!")];
        r := Redirect(DoctorDashboardUrl);
      }
    }

    /** `CustomLoginView.form_invalid`: nobody is logged in and the form is shown again with an error. */
    method LoginFormInvalid() returns (r: Response)
      modifies this
      ensures user == old(user)
      ensures messages == old(messages) + [LoginFailed]
      ensures r == Render(LoginTemplate)
    {
      messages := messages + [LoginFailed];
      r := Render(LoginTemplate);
    }

    /**
     A login form submission. `verified` is what the credential check
     answered: the matching user, or `None` for a wrong username or password.
     */
    method SubmitLogin(verified: Option<User>) returns (r: Response)
      modifies this
      ensures verified.Some? ==> user == verified
      ensures verified.Some? ==> r == LoginRoute(verified.value).response
      ensures verified.Some? ==> messages == old(messages) + Queued(LoginRoute(verified.value).message)
      ensures verified.None? ==> user == old(user) && r == Render(LoginTemplate)
      ensures verified.None? ==> messages == old(messages) + [LoginFailed]
    {
      match verified
      case Some(account) => r := LoginFormValid(account);
      case None => r := LoginFormInvalid();
    }

    /** The `dispatch` of a dashboard view, guarded by `Guard`; the session is never changed. */
    method Dispatch(area: Area) returns (r: Response)
      modifies this
      ensures user == old(user)
      ensures r == GuardOutcome(area, user).response
      ensures messages == old(messages) + Queued(GuardOutcome(area, user).message)
    {
      if user.None? {
        return Redirect(LoginUrl);
      }
      if user.value.userType != RequiredUserType(area) {
        messages := messages + [AccessDenied(area)];
        return Redirect(LoginUrl);
      }
      r := Render(AreaTemplate(area));
    }

    /**
     `logout_view` behind `login_required`: an anonymous caller is only
     redirected to log in; an authenticated one is logged out, whatever
     their user type, told so, and sent to login.
     */
    method Logout() returns (r: Response)
      modifies this
      ensures old(user).None? ==> user == old(user) && messages == old(messages) && r == LoginRequired
      ensures old(user).Some? ==> user.None? && messages == old(messages) + [LoggedOut] && r == Redirect(LoginUrl)
    {
      if user.None? {
        return LoginRequired;
      }
      user := None;
      messages := messages + [LoggedOut];
      r := Redirect(LoginUrl);
    }
  }

  /**
   A dashboard visited right after logging out is refused as not logged in:
   the caller is redirected to login and no access-denied error is queued.
   */
  method LogoutThenVisit(client: Client, area: Area) returns (first: Response, second: Response)
    modifies client
    ensures client.user.None?
    ensures second == Redirect(LoginUrl)
    ensures old(client.user).Some? ==> first == Redirect(LoginUrl) && client.messages == old(client.messages) + [LoggedOut]
    ensures old(client.user).None? ==> first == LoginRequired && client.messages == old(client.messages)
  {
    first := client.Logout();
    second := client.Dispatch(area);
  }

  /**
   A login followed by a dashboard visit. A rejected login creates no
   session, so an anonymous caller is then refused silently as not logged
   in; after an accepted one the caller is logged in as the verified user
   and the dashboard opens exactly when it is the one the login redirected to.
   */
  method LoginThenVisit(client: Client, verified: Option<User>, area: Area) returns (first: Response, second: Response)
    modifies client
    ensures verified.None? ==> client.user == old(client.user)
    ensures verified.None? ==>
      client.messages == old(client.messages) + [LoginFailed] + Queued(GuardOutcome(area, old(client.user)).message)
    ensures verified.None? && old(client.user).None? ==>
      second == Redirect(LoginUrl) && client.messages == old(client.messages) + [LoginFailed]
    ensures verified.Some? ==> client.user == verified
    ensures verified.Some? ==>
      client.messages == old(client.messages) + Queued(LoginRoute(verified.value).message) + Queued(GuardOutcome(area, verified).message)
    ensures verified.Some? ==> (first == Redirect(AreaUrl(area)) <==> second == Render(AreaTemplate(area)))
  {
    first := client.SubmitLogin(verified);
    second := client.Dispatch(area);
  }
}
