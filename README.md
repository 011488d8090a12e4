# Accounts: role-based login routing and dashboard guard

A Dafny model of the `accounts` application of a small Django site where
patients and doctors sign up, log in and reach a dashboard for their own
user type.

- `accounts_models.dfy` (module `Models`) holds the `User` record. It has the
  user type column with its two choices (`patient` / `Patient`, `doctor` /
  `Doctor`) and its default, the declared `max_length` of each character
  column, and the derived strings `full_name`, `full_address` and `__str__`.
  `get_user_type_display()` works as Django does it: it looks the stored value
  up in the choices list and falls back to the value itself.
- `accounts_views.dfy` (module `Views`) holds the handlers. The decisions are
  pure functions:
  - `LoginRoute` picks where a successful login goes and how it greets the user.
  - `Guard` is one function, parameterised by the dashboard, used for both
    dashboard views.
  - `GuardOutcome` turns the guard's decision into a response and a message.

  The handlers are methods of the class `Client`, which stands for one
  client across successive requests. Its fields are the user the session is
  authenticated as (`Option<User>`, `None` for the anonymous user) and the
  queue of messages not yet shown (`seq<Message>`). Each handler's postcondition ties the
  response and the new state to the pure functions. Two client methods,
  `LogoutThenVisit` and `LoginThenVisit`, chain handlers the way successive
  requests do.
- `wrappers.dfy` holds the `Option` type.

`user_type` is a free string, as in the code. A column's `choices` are
checked by form and model validation but not when a record is saved, and
the views compare the stored value with `==` and `!=`. So the login view's
fallback branch (no greeting, the framework's own response) is reachable
for a stored value outside the choices, and the model keeps it. A design
that closes the user type to two variants would make that branch
unreachable; the model follows the code instead.

## Model

| member | source | states |
|---|---|---|
| `Models.LookupLabel` | accounts/models.py:10-13 | the label lookup in a choices list finds a label exactly when some entry has the value, and the label it returns belongs to the last entry with that value (dictionary semantics) |
| `Models.UserTypeDisplay` | accounts/models.py:36 | the display of `patient` is `Patient`, of `doctor` is `Doctor`, and of any other stored value is that value itself |
| `Models.UserTypeChoicesDeclared` | accounts/models.py:10-20 | the lookup through `USER_TYPE_CHOICES` finds exactly the two declared user types, with labels `Patient` and `Doctor`; both fit `max_length=10`; the default `patient` is one of them |
| `Models.UserTypeDisplayDistinguishes` | accounts/models.py:10-13 | the display labels of the two user types differ from each other and from the stored values |
| `Models.UserTypeOrDefault` | accounts/models.py:15-20 | a given user type is kept; an omitted one becomes a declared choice whose label is `Patient` |
| `Models.FullName` | accounts/models.py:38-40 | `full_name` is the first name, then one space, then the last name, with the length of the three together |
| `Models.FullAddress` | accounts/models.py:42-44 | `full_address` is address line, `", "`, city, `", "`, state, `" - "`, pincode, each piece at its offset, with 7 characters of separators |
| `Models.Str` | accounts/models.py:35-36 | `__str__` starts with `full_name`; it is `full_name (Patient)` or `full_name (Doctor)` for the two user types and `full_name (<stored value>)` otherwise |
| `Models.WithinDeclaredBounds` | accounts/models.py:15-33 | every character column fits its declared `max_length`: user_type 10, first and last name 30, address_line1 100, city and state 50, pincode 10 |
| `Models.DerivedStringsBounded` | accounts/models.py:15-33 | a record within the declared `max_length` bounds has a full name of at most 61, a full address of at most 217 and a string form of at most 74 characters |
| `Views.LoginRoute` | accounts/views.py:50-64 | a login redirects to the patient dashboard iff the user type is `patient`, to the doctor dashboard iff it is `doctor`, and returns the framework's response iff it is neither; the greeting `Welcome, {first_name}!` or `Welcome, Dr. {last_name}!` is sent exactly in the two dashboard cases |
| `Views.LoginDestinationDependsOnUserTypeOnly` | accounts/views.py:57-64 | two users with the same user type are sent to the same destination, and either both are greeted or neither is |
| `Views.RequiredUserType` | accounts/views.py:89-115 | the patient dashboard requires exactly `patient` and the doctor dashboard exactly `doctor`, so the two requirements differ |
| `Views.DeclaredUserTypeRoutedToOneArea` | accounts/views.py:57-118 | a user of a declared user type is greeted on login and let into exactly one dashboard |
| `Views.Audience` | accounts/views.py:90-116 | the denial message names an area's users as its required user type plus `s` (`patients`, `doctors`) |
| `Views.Guard` | accounts/views.py:83-118 | an anonymous caller is denied as not logged in whatever the dashboard; access is allowed iff the caller is authenticated with the dashboard's user type; a wrong-role denial happens iff the caller is authenticated with another user type |
| `Views.GuardOutcome` | accounts/views.py:83-118 | the dashboard is rendered iff the guard allows, the caller is redirected to login iff it denies, and exactly the wrong-role denial queues the error `Access denied. This area is for {patients/doctors} only.` (built by `AccessDenied`); the dashboard rendered is the area's template (`AreaTemplate`: views.py:81, 107) |
| `Views.GuardAdmitsAtMostOneArea` | accounts/views.py:83-118 | no session is allowed into both dashboards |
| `Views.GuardAdmitsDeclaredUserTypes` | accounts/views.py:83-118 | an authenticated user gets into some dashboard iff their user type is one of the two choices |
| `Views.LoginLandsWhereGuardAdmits` | accounts/views.py:57-62 | a successful login redirects to a dashboard iff that dashboard's guard lets the user in |
| `Views.Client.SignupFormValid` | accounts/views.py:19-30 | a successful signup leaves the session unchanged, queues `Account created successfully! …` and redirects to login |
| `Views.Client.SignupFormInvalid` | accounts/views.py:32-40 | a failed signup leaves the session unchanged, queues the correction error and shows the signup form again |
| `Views.Client.LoginFormValid` | accounts/views.py:50-64 | a successful login authenticates the request as the user, answers `LoginRoute`'s response and queues its greeting, if any |
| `Views.Client.LoginFormInvalid` | accounts/views.py:66-74 | a failed login leaves the session unchanged, queues `Invalid username or password. Please try again.` and shows the login form again, never a dashboard |
| `Views.Client.SubmitLogin` | accounts/views.py:50-74 | given what the credential check answered, a login submission takes the success path for a verified user and the failure path otherwise |
| `Views.Client.Dispatch` | accounts/views.py:83-118 | a dashboard request never changes the session, answers `GuardOutcome`'s response and queues its message, if any |
| `Views.Client.Logout` | accounts/views.py:129-137 | an authenticated caller of any user type ends anonymous, with `You have been logged out successfully.` queued and a redirect to login; an anonymous caller only gets the login-required redirect |
| `Views.LogoutThenVisit` | accounts/views.py:83-137 | the caller ends anonymous; a dashboard visited right after logout redirects to login and queues no access-denied error |
| `Views.LoginThenVisit` | accounts/views.py:50-118 | a rejected login leaves the session as it was and queues the login error, and an anonymous caller is then refused silently as not logged in; an accepted login logs the caller in as the verified user, queues the greeting and the dashboard's message, if any, and the dashboard opens iff the login redirected there |

## Left out

- Database persistence: saving the signed-up record, the unique `email`, and a count of stored accounts. Signup success is modelled by its message, response and unchanged session only.
- Password hashing, the `authenticate` call and session storage. The credential check is the `verified: Option<User>` argument of `SubmitLogin`. Logging in and out set `Client.user`.
- `Models.WithinDeclaredBounds` states the `max_length` bounds only. It does not require the text columns to be non-empty, which Django's model validation also checks.
- `accounts/forms.py` (the signup and login forms and their field validation) is not part of this model. Whether a form is valid is the caller's choice of handler.
- The `EmailField` syntax check and the `profile_picture` upload are library validators and file I/O. Both fields are carried in `User` unconstrained.
- `get_context_data` of both dashboards only attaches the user to the template context. The model stops at which template is rendered.
- `Views.Client.Dispatch`: an allowed request is modelled as the GET rendering of the dashboard. It does not model the HTTP method dispatch of the framework's template view.
- `Views.Client.Logout`: the target of the `login_required` redirect comes from framework settings, so it is a separate response `LoginRequired`.
- `Views.LoginRoute`: the framework's own success response (`LoginViewDefault`) is opaque. Its target comes from the `next` parameter or the settings.
- `accounts/urls.py` is name-to-view wiring. The URL names appear as `UrlName`.
- The message storage backend, templates, and HTTP request and response objects. Messages are a queue on the client.
