/**
 * Sign-in and self-registration (app/controllers/auth.py) over the user
 * table, and the shared admission rule that registration and the
 * command-line user creation apply: the username is checked first, then
 * the email, and only then is a user added. Form fields are taken as sent;
 * the browser session that `login_user` writes is the returned sign-in.
 */
module Auth {
  import opened Common
  import opened Accounts

  /** What a view answers with. */
  datatype Response = Redirect(endpoint: string, flash: Option<string>) | Render(template: string)

  /** A successful sign-in: the user and the "remember me" choice. */
  datatype SignIn = SignIn(user: User, remember: bool)

  /**
   * `login`: a signed-in visitor is sent to the dashboard, a GET shows the
   * form, and a POST whose username exists and whose password matches its
   * hash goes to the dashboard; otherwise it flashes a message and goes back
   * to the form. Flask-Login's `login_user` starts a session only for an
   * active user, so a deactivated user with the right password is sent to
   * the dashboard without being signed in. The table is not changed.
   */
  method Login(table: UserTable, authenticated: bool, isPost: bool, username: string, password: string,
               remember: Option<string>)
    returns (response: Response, signedIn: Option<SignIn>)
    ensures authenticated ==> response == Redirect("dashboard", None) && signedIn.None?
    ensures !authenticated && !isPost ==> response == Render("login.html") && signedIn.None?
    ensures !authenticated && isPost ==>
      (signedIn.Some? <==>
        && FindByUsername(table.users, username).Some?
        && FindByUsername(table.users, username).value.CheckPassword(password)
        && FindByUsername(table.users, username).value.isActive)
    ensures signedIn.Some? ==>
      && signedIn.value.user in table.users && signedIn.value.user.username == username
      && signedIn.value.user.CheckPassword(password) && signedIn.value.user.isActive
      && signedIn.value.remember == (remember.Some? && remember.value != "")
    ensures !authenticated && isPost ==>
      if FindByUsername(table.users, username).Some? && FindByUsername(table.users, username).value.CheckPassword(password)
      then response == Redirect("dashboard", None)
      else response == Redirect("auth.login", Some("Please check your login details and try again."))
  {
    if authenticated {
      return Redirect("dashboard", None), None;
    }
    if !isPost {
      return Render("login.html"), None;
    }
    var user := FindByUsername(table.users, username);
    if user.None? || !user.value.CheckPassword(password) {
      return Redirect("auth.login", Some("Please check your login details and try again.")), None;
    }
    // `login_user` refuses an inactive user and returns False, which the view ignores.
    signedIn := if user.value.isActive then Some(SignIn(user.value, remember.Some? && remember.value != "")) else None;
    response := Redirect("dashboard", None);
  }

  /** With unique usernames, the sign-in rule is: some active user has that username and that password. */
  lemma LoginMeaning(users: seq<User>, username: string, password: string)
    requires UniqueUsers(users)
    ensures (&& FindByUsername(users, username).Some?
             && FindByUsername(users, username).value.CheckPassword(password)
             && FindByUsername(users, username).value.isActive) <==>
      exists i :: 0 <= i < |users| && users[i].username == username && users[i].CheckPassword(password) && users[i].isActive
  {
    var f := FindByUsername(users, username);
    if f.Some? {
      var k := IndexIn(users, f.value);
      forall i | 0 <= i < |users| && users[i].username == username
        ensures users[i] == f.value
      {
        assert i == k;
      }
    }
  }

  /** The position of a member of a sequence. */
  lemma IndexIn(users: seq<User>, u: User) returns (k: nat)
    requires u in users
    ensures k < |users| && users[k] == u
  {
    k :| 0 <= k < |users| && users[k] == u;
  }

  /** The outcome of the admission rule. */
  datatype Admission = UsernameTaken | EmailTaken | Added(user: User)

  /**
   * The admission rule of `register` and `create_user`: a taken username
   * refuses first, then a taken email; otherwise exactly one new user with
   * the given credentials and the column defaults is appended, and the
   * username and email columns stay unique.
   */
  method Admit(table: UserTable, username: string, email: string, password: string) returns (outcome: Admission)
    requires table.Valid()
    modifies table`users, table`nextId
    ensures table.Valid()
    ensures outcome.UsernameTaken? <==> old(FindByUsername(table.users, username)).Some?
    ensures outcome.EmailTaken? <==>
      old(FindByUsername(table.users, username)).None? && old(FindByEmail(table.users, email)).Some?
    ensures !outcome.Added? ==> table.users == old(table.users) && table.nextId == old(table.nextId)
    ensures outcome.Added? ==>
      && fresh(outcome.user)
      && table.users == old(table.users) + [outcome.user]
      && outcome.user.id == old(table.nextId)
      && outcome.user.username == username && outcome.user.email == email
      && outcome.user.CheckPassword(password)
      && outcome.user.role == "standard" && outcome.user.isActive
      && FindByUsername(table.users, username) == Some(outcome.user)
  {
    if FindByUsername(table.users, username).Some? {
      return UsernameTaken;
    }
    if FindByEmail(table.users, email).Some? {
      return EmailTaken;
    }
    var id := table.FreshId();
    var u := new User(id, username, email, password);
    FindAppended(table.users, u);
    table.Insert(u);
    outcome := Added(u);
  }

  /** A user appended under a username nobody had is the one a lookup by that username finds. */
  lemma {:induction false} FindAppended(users: seq<User>, u: User)
    requires FindByUsername(users, u.username).None?
    ensures FindByUsername(users + [u], u.username) == Some(u)
    decreases |users|
  {
    if users == [] {
      assert users + [u] == [u];
    } else {
      assert (users + [u])[1..] == users[1..] + [u];
      FindAppended(users[1..], u);
    }
  }

  /**
   * `register`: a signed-in visitor is sent to the dashboard and a GET shows
   * the form, neither changing the table; a POST applies the admission rule
   * and answers with the form again and a message, or with the sign-in page.
   * A registered user can then sign in with the same username and password.
   */
  method Register(table: UserTable, authenticated: bool, isPost: bool, username: string, email: string, password: string)
    returns (response: Response, added: Option<User>)
    requires table.Valid()
    modifies table`users, table`nextId
    ensures table.Valid()
    ensures authenticated ==> response == Redirect("dashboard", None)
    ensures !authenticated && !isPost ==> response == Render("register.html")
    ensures !authenticated && isPost && old(FindByUsername(table.users, username)).Some? ==>
      response == Redirect("auth.register", Some("Username already exists"))
    ensures !authenticated && isPost && old(FindByUsername(table.users, username)).None? && old(FindByEmail(table.users, email)).Some? ==>
      response == Redirect("auth.register", Some("Email already registered"))
    ensures added.None? ==> table.users == old(table.users) && table.nextId == old(table.nextId)
    ensures added.Some? <==>
      !authenticated && isPost && old(FindByUsername(table.users, username)).None? && old(FindByEmail(table.users, email)).None?
    ensures added.Some? ==>
      && fresh(added.value)
      && table.users == old(table.users) + [added.value]
      && added.value.username == username && added.value.email == email
      && response == Redirect("auth.login", None)
      && FindByUsername(table.users, username) == Some(added.value)
      && added.value.CheckPassword(password)
  {
    if authenticated {
      return Redirect("dashboard", None), None;
    }
    if !isPost {
      return Render("register.html"), None;
    }
    var outcome := Admit(table, username, email, password);
    match outcome {
      case UsernameTaken =>
        response, added := Redirect("auth.register", Some("Username already exists")), None;
      case EmailTaken =>
        response, added := Redirect("auth.register", Some("Email already registered")), None;
      case Added(u) =>
        response, added := Redirect("auth.login", None), Some(u);
    }
  }
}
