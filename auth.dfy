/**
 * The NextAuth configuration of the admin area: the credentials provider's
 * `authorize`, which checks an email and password against `admin_users`;
 * the `jwt` and `session` callbacks, which carry the user's id, email and
 * name from the sign-in into the token and from the token into the session;
 * and the `authorized` callback, which guards the admin pages.
 * The database query is the parameter `lookup` and bcrypt's `compare` the
 * parameter `compare`.
 */
module Auth {
  import opened Wrappers
  import opened Json
  import opened Text
  import opened Lists
  import PageHeader

  /** A row of `admin_users`; `name` is nullable. */
  datatype AdminUser = AdminUser(id: string, email: string, passwordHash: string, name: Option<string>)

  /** The outcome of `from('admin_users').select('*').eq('email', email).single()`:
      the one matching row, or anything else (an error, no row, several rows,
      or a client that could not be created). */
  datatype Lookup = Found(user: AdminUser) | NotFound

  /** `select(...).eq('email', email).single()` on the rows of `admin_users`:
      the row when exactly one has that email, otherwise an error and no data. */
  function LookupIn(rows: seq<AdminUser>): Value -> Lookup {
    (email: Value) =>
      var matching := if email.Str? then Keep(rows, (u: AdminUser) => u.email == email.s) else [];
      if |matching| == 1 then Found(matching[0]) else NotFound
  }

  /** The user object `authorize` returns. */
  datatype SessionUser = SessionUser(id: string, email: string, name: Option<string>)

  /** `authorize(credentials)`: the thrown messages are the errors. Every
      failure after the credentials are present, including "Invalid
      credentials", is caught and rethrown as "Authentication failed". */
  function Authorize(email: Value, password: Value, lookup: Value -> Lookup,
                     compare: (Value, string) -> bool): (r: Result<SessionUser, string>)
    ensures r.Err? ==> r.error in {"Missing credentials", "Authentication failed"}
    ensures r == Err("Missing credentials") <==> !Truthy(email) || !Truthy(password)
    ensures r.Ok? <==>
      && Truthy(email) && Truthy(password)
      && lookup(email).Found? && compare(password, lookup(email).user.passwordHash)
    ensures r.Ok? ==>
      var u := lookup(email).user;
      r.value == SessionUser(u.id, u.email, u.name)
  {
    if !Truthy(email) || !Truthy(password) then
      Err("Missing credentials")
    else
      match lookup(email)
      case NotFound => Err("Authentication failed")
      case Found(user) =>
        if compare(password, user.passwordHash) then Ok(SessionUser(user.id, user.email, user.name))
        else Err("Authentication failed")
  }

  /** A wrong password and an unknown email are told apart by nothing: both
      give the same error. */
  lemma FailuresLookAlike(email: Value, password: Value, lookup: Value -> Lookup,
                          compare: (Value, string) -> bool)
    requires Truthy(email) && Truthy(password)
    requires lookup(email).NotFound? || !compare(password, lookup(email).user.passwordHash)
    ensures Authorize(email, password, lookup, compare) == Err("Authentication failed")
  {
  }

  function NameValue(name: Option<string>): Value {
    if name.Some? then Str(name.value) else Null
  }

  /** The `jwt` callback: at sign-in the user's id, email and name are
      written into the token; on later calls the token is returned as is. */
  function Jwt(token: Record, user: Option<SessionUser>): (r: Record)
    ensures user.None? ==> r == token
    ensures user.Some? ==>
      && r.Keys == token.Keys + {"id", "email", "name"}
      && r["id"] == Str(user.value.id) && r["email"] == Str(user.value.email)
      && r["name"] == NameValue(user.value.name)
      && (forall k :: k in token && k !in {"id", "email", "name"} ==> r[k] == token[k])
  {
    if user.None? then token
    else token["id" := Str(user.value.id)]["email" := Str(user.value.email)]["name" := NameValue(user.value.name)]
  }

  /** The `session` callback on `session.user`: when both the token and the
      session's user exist, the token's id, email and name are copied onto
      the user (an absent claim copies `undefined`). */
  function Session(sessionUser: Option<Record>, token: Option<Record>): (r: Option<Record>)
    ensures r.None? <==> sessionUser.None?
    ensures token.None? ==> r == sessionUser
    ensures token.Some? && sessionUser.Some? ==>
      && r.value.Keys == sessionUser.value.Keys + {"id", "email", "name"}
      && r.value["id"] == Column(token.value, "id")
      && r.value["email"] == Column(token.value, "email")
      && r.value["name"] == Column(token.value, "name")
      && (forall k :: k in sessionUser.value && k !in {"id", "email", "name"} ==> r.value[k] == sessionUser.value[k])
  {
    if token.Some? && sessionUser.Some? then
      var t := token.value;
      Some(sessionUser.value["id" := Column(t, "id")]["email" := Column(t, "email")]["name" := Column(t, "name")])
    else sessionUser
  }

  /** What a sign-in leaves in every later session: the id, email and name
      `authorize` returned, and no password hash unless the session or the
      token already had one. */
  lemma SignInReachesSession(email: Value, password: Value, lookup: Value -> Lookup,
                             compare: (Value, string) -> bool, token: Record, sessionUser: Record)
    requires Authorize(email, password, lookup, compare).Ok?
    ensures var u := lookup(email).user;
      var s := Session(Some(sessionUser), Some(Jwt(token, Some(Authorize(email, password, lookup, compare).value))));
      && s.Some?
      && s.value["id"] == Str(u.id) && s.value["email"] == Str(u.email) && s.value["name"] == NameValue(u.name)
      && ("password_hash" in s.value <==> "password_hash" in sessionUser)
  {
    var u := Authorize(email, password, lookup, compare).value;
    var t := Jwt(token, Some(u));
    assert Column(t, "id") == Str(u.id) && Column(t, "email") == Str(u.email) && Column(t, "name") == NameValue(u.name);
  }

  /** What the `authorized` callback returns: `true`, `false`, or a
      redirect response. */
  datatype Decision = Allow | Deny | Redirect(target: string)

  const LoginPage := "/admin/login"

  /** The `authorized` callback for a request to `pathname`. */
  function Authorized(isLoggedIn: bool, pathname: string): (d: Decision)
    ensures d == Deny <==> StartsWith(pathname, "/admin") && pathname != LoginPage && !isLoggedIn
    ensures d.Redirect? <==> isLoggedIn && pathname == LoginPage
    ensures d.Redirect? ==> d.target == "/admin"
  {
    var onAdminPanel := StartsWith(pathname, "/admin");
    var onLoginPage := pathname == LoginPage;
    if onAdminPanel && !onLoginPage then
      if !isLoggedIn then Deny else Allow
    else if isLoggedIn && onLoginPage then Redirect("/admin")
    else Allow
  }

  /** A signed-in user reaches every page but the login page; a signed-out
      one reaches every page outside the admin panel, and the login page. */
  lemma WhoReachesWhat(pathname: string)
    ensures pathname != LoginPage ==> Authorized(true, pathname) == Allow
    ensures !StartsWith(pathname, "/admin") ==> Authorized(false, pathname) == Allow
    ensures Authorized(false, LoginPage) == Allow
  {
  }

  /** Every page the admin layout gives a header to is closed to a
      signed-out visitor. */
  lemma HeaderedPagesAreGuarded(pathname: string, userName: Option<string>)
    requires PageHeader.GetPageHeaderConfig(pathname, userName).Some?
    ensures Authorized(false, pathname) == Deny
  {
    PageHeader.HeaderExactlyOnAdminSections(pathname, userName);
    if pathname != "/admin" {
      var s: PageHeader.Section :| pathname == PageHeader.Base(s) || PageHeader.Below(pathname, s);
      PageHeader.SectionPagesAreAdmin(pathname, s);
      assert LoginPage[7] !in "pesc";
    }
  }
}
