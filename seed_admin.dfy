/**
 * The admin seed script: it reads the Supabase configuration and the admin's
 * email and password from the environment, validates them, and inserts the
 * admin into `admin_users` unless a user with that email exists. The exit
 * code is the method's result; the environment is a parameter, bcrypt's
 * `hash` the parameter `hash`, the id the database gives the new row the
 * parameter `newId`, and a failing insert the parameter `insertError`.
 */
module SeedAdmin {
  import opened Wrappers
  import opened Text
  import opened Lists
  import opened Json
  import Auth

  /** A character of the class `[^\s@]`. */
  predicate Plain(c: char) {
    c != '@' && !IsSpace(c)
  }

  /** What `/^[^\s@]+@[^\s@]+\.[^\s@]+$/` matches: a non-empty run of plain
      characters, '@', a non-empty run, '.', and a non-empty run. */
  ghost predicate MatchesEmailPattern(s: string) {
    exists i, j | 0 < i < j - 1 && j + 1 < |s| ::
      s[i] == '@' && s[j] == '.' && forall k | 0 <= k < |s| && k != i :: Plain(s[k])
  }

  /** The regular expression's test, decided from the first '@'. */
  predicate IsEmail(s: string) {
    var i := IndexOfFirst(s, (c: char) => c == '@');
    && 0 < i
    && (forall k | 0 <= k < |s| && k != i :: Plain(s[k]))
    && i + 3 < |s|
    && '.' in s[i + 2..|s| - 1]
  }

  /** The test accepts exactly the strings the pattern matches. */
  lemma IsEmailMatchesPattern(s: string)
    ensures IsEmail(s) <==> MatchesEmailPattern(s)
  {
    var at := (c: char) => c == '@';
    var i := IndexOfFirst(s, at);
    if IsEmail(s) {
      var tail := s[i + 2..|s| - 1];
      var m :| 0 <= m < |tail| && tail[m] == '.';
      var j := i + 2 + m;
      assert s[j] == '.';
      assert 0 < i < j - 1 && j + 1 < |s|;
    }
    if MatchesEmailPattern(s) {
      var i', j :| 0 < i' < j - 1 && j + 1 < |s| && s[i'] == '@' && s[j] == '.' &&
                   forall k | 0 <= k < |s| && k != i' :: Plain(s[k]);
      assert at(s[i']);
      assert i == i';
      assert s[i + 2..|s| - 1][j - (i + 2)] == '.';
    }
  }

  /** `!value` is false for a variable that is set and not empty. */
  predicate Filled(v: Option<string>) {
    v.Some? && v.value != ""
  }

  /** The four variables the script reads. */
  datatype Env = Env(
    supabaseUrl: Option<string>,
    serviceRoleKey: Option<string>,
    adminEmail: Option<string>,
    adminPassword: Option<string>)

  /** Every check before the database is reached passes. */
  predicate ValidSetup(env: Env) {
    && Filled(env.supabaseUrl) && Filled(env.serviceRoleKey)
    && Filled(env.adminEmail) && Filled(env.adminPassword)
    && IsEmail(env.adminEmail.value)
    && |env.adminPassword.value| >= 8
  }

  /** The existence check reads the row only when exactly one has the email. */
  predicate AlreadySeeded(rows: seq<Auth.AdminUser>, email: string) {
    Auth.LookupIn(rows)(Str(email)).Found?
  }

  /** The row the script inserts. */
  function NewAdmin(newId: string, email: string, passwordHash: string): Auth.AdminUser {
    Auth.AdminUser(newId, email, passwordHash, Some("Admin"))
  }

  /** The `admin_users` table. */
  class AdminUsers {
    var rows: seq<Auth.AdminUser>

    constructor (rows: seq<Auth.AdminUser>)
      ensures this.rows == rows
    {
      this.rows := rows;
    }
  }

  /** `seedAdmin()`, returning the code the process exits with. */
  method Seed(env: Env, table: AdminUsers, hash: (string, nat) -> string, newId: string,
              insertError: Option<string>) returns (exitCode: nat)
    modifies table
    ensures !ValidSetup(env) ==> exitCode == 1 && table.rows == old(table.rows)
    ensures ValidSetup(env) && AlreadySeeded(old(table.rows), env.adminEmail.value) ==>
      exitCode == 0 && table.rows == old(table.rows)
    ensures ValidSetup(env) && !AlreadySeeded(old(table.rows), env.adminEmail.value) && insertError.Some? ==>
      exitCode == 1 && table.rows == old(table.rows)
    ensures ValidSetup(env) && !AlreadySeeded(old(table.rows), env.adminEmail.value) && insertError.None? ==>
      && exitCode == 0
      && table.rows == old(table.rows) + [NewAdmin(newId, env.adminEmail.value, hash(env.adminPassword.value, 12))]
  {
    if !Filled(env.supabaseUrl) || !Filled(env.serviceRoleKey) {
      return 1;
    }
    if !Filled(env.adminEmail) || !Filled(env.adminPassword) {
      return 1;
    }
    var email := env.adminEmail.value;
    var password := env.adminPassword.value;
    if !IsEmail(email) {
      return 1;
    }
    if |password| < 8 {
      return 1;
    }
    if AlreadySeeded(table.rows, email) {
      return 0;
    }
    var passwordHash := hash(password, 12);
    if insertError.Some? {
      return 1;
    }
    table.rows := table.rows + [NewAdmin(newId, email, passwordHash)];
    return 0;
  }

  /** Running the script again after it created the admin changes nothing:
      the new row is then the only one with its email. */
  lemma SecondRunFindsAdmin(rows: seq<Auth.AdminUser>, newId: string, email: string, passwordHash: string)
    requires forall u :: u in rows ==> u.email != email
    ensures AlreadySeeded(rows + [NewAdmin(newId, email, passwordHash)], email)
    ensures Auth.LookupIn(rows + [NewAdmin(newId, email, passwordHash)])(Str(email)) ==
            Auth.Found(NewAdmin(newId, email, passwordHash))
  {
    var p := (u: Auth.AdminUser) => u.email == email;
    KeepAppend(rows, [NewAdmin(newId, email, passwordHash)], p);
    KeepNone(rows, p);
  }

  /** The admin the script creates can sign in with the configured email and
      password, given that bcrypt's `compare` accepts a password against its
      own hash. */
  lemma SeededAdminCanSignIn(env: Env, rows: seq<Auth.AdminUser>, hash: (string, nat) -> string, newId: string,
                             compare: (Value, string) -> bool)
    requires ValidSetup(env)
    requires forall u :: u in rows ==> u.email != env.adminEmail.value
    requires compare(Str(env.adminPassword.value), hash(env.adminPassword.value, 12))
    ensures var seeded := rows + [NewAdmin(newId, env.adminEmail.value, hash(env.adminPassword.value, 12))];
      Auth.Authorize(Str(env.adminEmail.value), Str(env.adminPassword.value), Auth.LookupIn(seeded), compare) ==
      Ok(Auth.SessionUser(newId, env.adminEmail.value, Some("Admin")))
  {
    SecondRunFindsAdmin(rows, newId, env.adminEmail.value, hash(env.adminPassword.value, 12));
  }
}
