/** The Flask app's own accounts: registration, which refuses a password
    that does not match its confirmation and a username or email already in
    use, and login, which admits an active user whose password checks.

    Hashing a password and checking one against its hash are done by a
    library; here they are parameters: `hash` maps a password to the stored
    hash and `check` answers whether a password matches a stored hash. */
module Registry {
  import opened Http

  datatype Account = Account(id: int, username: string, email: string, passwordHash: string, role: string, isActive: bool)

  /** A one-shot message shown on the next page, with its category. */
  datatype Flash = Flash(message: string, category: string)

  /** Where the browser goes next; ServerFault is the error page of an
      exception raised while creating the account. */
  datatype Page = Redirect(endpoint: string) | Render(template: string) | ServerFault

  /** A logged-in session and whether it is remembered across restarts. */
  datatype Session = Session(userId: int, remember: bool)

  datatype Response = Response(page: Page, flash: Option<Flash>, session: Option<Session>)

  /** The fields of a submitted form; a field the browser did not send is None. */
  datatype RegisterForm = RegisterForm(username: Option<string>, email: Option<string>, password: Option<string>,
                                       confirmPassword: Option<string>)

  datatype LoginForm = LoginForm(username: Option<string>, password: Option<string>, remember: Option<string>)

  const Dashboard := "main.dashboard"
  const RegisterPage := "auth.register"
  const LoginPage := "auth.login"
  const PasswordMismatch := "Mật khẩu không khớp!"
  const UsernameTaken := "Tên đăng nhập đã tồn tại!"
  const EmailTaken := "Email đã được sử dụng!"
  const Registered := "Đăng ký thành công! Vui lòng đăng nhập."
  const LoggedIn := "Đăng nhập thành công!"
  const BadCredentials := "Tên đăng nhập hoặc mật khẩu không đúng!"
  const DefaultRole := "staff"

  /** `User.query.filter_by(username=...).first()`. A missing field matches
      no row, since the column is NOT NULL. */
  function ByUsername(users: seq<Account>, name: Option<string>): (r: Option<Account>)
    ensures r.Some? ==> name.Some? && r.value in users && r.value.username == name.value
    ensures r.None? ==> name.None? || forall u :: u in users ==> u.username != name.value
  {
    if name.None? || users == [] then None
    else if users[0].username == name.value then Some(users[0])
    else ByUsername(users[1..], name)
  }

  function ByEmail(users: seq<Account>, email: Option<string>): (r: Option<Account>)
    ensures r.Some? ==> email.Some? && r.value in users && r.value.email == email.value
    ensures r.None? ==> email.None? || forall u :: u in users ==> u.email != email.value
  {
    if email.None? || users == [] then None
    else if users[0].email == email.value then Some(users[0])
    else ByEmail(users[1..], email)
  }

  /** The UNIQUE constraints on username and email. */
  ghost predicate Unique(users: seq<Account>)
  {
    forall i, j :: 0 <= i < j < |users| ==> users[i].username != users[j].username && users[i].email != users[j].email
  }

  /** GET and POST /login. A visitor already logged in goes to the
      dashboard. A POST is admitted exactly when a user of that name exists,
      the password checks against its hash and the account is active; then
      the browser goes to the `next` page when one is given and to the
      dashboard otherwise. Any other POST gets one message whichever check
      failed, and stays on the form. */
  function Login(authenticated: bool, isPost: bool, form: LoginForm, next: Option<string>, users: seq<Account>,
                 check: (string, Option<string>) -> bool): (r: Response)
    ensures authenticated ==> r == Response(Redirect(Dashboard), None, None)
    ensures r.session.Some? <==>
              && !authenticated && isPost
              && ByUsername(users, form.username).Some?
              && check(ByUsername(users, form.username).value.passwordHash, form.password)
              && ByUsername(users, form.username).value.isActive
    ensures r.session.Some? ==>
              && r.session.value == Session(ByUsername(users, form.username).value.id, TruthyString(form.remember))
              && r.page == Redirect(if TruthyString(next) then next.value else Dashboard)
              && r.flash == Some(Flash(LoggedIn, "success"))
    ensures !authenticated && isPost && r.session.None? ==>
              r == Response(Render("login.html"), Some(Flash(BadCredentials, "danger")), None)
    ensures !authenticated && !isPost ==> r == Response(Render("login.html"), None, None)
  {
    if authenticated then Response(Redirect(Dashboard), None, None)
    else if !isPost then Response(Render("login.html"), None, None)
    else
      var user := ByUsername(users, form.username);
      if user.Some? && check(user.value.passwordHash, form.password) && user.value.isActive then
        Response(Redirect(if TruthyString(next) then next.value else Dashboard), Some(Flash(LoggedIn, "success")),
                 Some(Session(user.value.id, TruthyString(form.remember))))
      else Response(Render("login.html"), Some(Flash(BadCredentials, "danger")), None)
  }

  /** A deactivated account cannot log in, whatever its password. */
  lemma InactiveNeverLogsIn(form: LoginForm, next: Option<string>, users: seq<Account>,
                            check: (string, Option<string>) -> bool)
    requires ByUsername(users, form.username).Some? && !ByUsername(users, form.username).value.isActive
    ensures Login(false, true, form, next, users, check).session.None?
  {
  }

  /** An empty `next` counts as absent and leads to the dashboard. */
  lemma EmptyNextGoesToDashboard(form: LoginForm, users: seq<Account>, check: (string, Option<string>) -> bool)
    requires Login(false, true, form, Some(""), users, check).session.Some?
    ensures Login(false, true, form, Some(""), users, check).page == Redirect(Dashboard)
  {
  }

  /** The `users` table. */
  class UserRegistry {
    var users: seq<Account>
    /** The next value of the id sequence. */
    var nextId: int

    ghost predicate Valid()
      reads this
    {
      && Unique(users)
      && forall k :: 0 <= k < |users| ==> users[k].id < nextId
    }

    constructor ()
      ensures Valid() && users == [] && nextId == 1
    {
      users := [];
      nextId := 1;
    }

    /** GET and POST /register. A visitor already logged in goes to the
        dashboard; a POST is checked in order for a confirmation that differs
        from the password, a username in use and an email in use, each sending
        the browser back to the form with its own message. Otherwise a staff
        account, active, is added with the hashed password. A form without a
        username, email or password passes the checks and then fails while the
        account is created, adding nothing. */
    method Register(authenticated: bool, isPost: bool, form: RegisterForm, hash: Option<string> -> string)
      returns (r: Response)
      requires Valid()
      modifies this
      ensures Valid()
      ensures r.session.None?
      ensures authenticated ==> r == Response(Redirect(Dashboard), None, None) && unchanged(this)
      ensures !authenticated && !isPost ==> r == Response(Render("register.html"), None, None) && unchanged(this)
      ensures !authenticated && isPost && form.password != form.confirmPassword ==>
                r == Response(Redirect(RegisterPage), Some(Flash(PasswordMismatch, "danger")), None) && unchanged(this)
      ensures !authenticated && isPost && form.password == form.confirmPassword && ByUsername(old(users), form.username).Some? ==>
                r == Response(Redirect(RegisterPage), Some(Flash(UsernameTaken, "danger")), None) && unchanged(this)
      ensures !authenticated && isPost && form.password == form.confirmPassword && ByUsername(old(users), form.username).None?
              && ByEmail(old(users), form.email).Some? ==>
                r == Response(Redirect(RegisterPage), Some(Flash(EmailTaken, "danger")), None) && unchanged(this)
      ensures r.page == Redirect(LoginPage) <==>
                && !authenticated && isPost && form.password == form.confirmPassword
                && ByUsername(old(users), form.username).None? && ByEmail(old(users), form.email).None?
                && form.username.Some? && form.email.Some? && form.password.Some?
      ensures r.page == Redirect(LoginPage) ==>
                && r.flash == Some(Flash(Registered, "success"))
                && users == old(users) + [Account(old(nextId), form.username.value, form.email.value, hash(form.password),
                                                  DefaultRole, true)]
                && nextId == old(nextId) + 1
      ensures r.page != Redirect(LoginPage) ==> users == old(users)
    {
      if authenticated {
        return Response(Redirect(Dashboard), None, None);
      }
      if !isPost {
        return Response(Render("register.html"), None, None);
      }
      if form.password != form.confirmPassword {
        return Response(Redirect(RegisterPage), Some(Flash(PasswordMismatch, "danger")), None);
      }
      if ByUsername(users, form.username).Some? {
        return Response(Redirect(RegisterPage), Some(Flash(UsernameTaken, "danger")), None);
      }
      if ByEmail(users, form.email).Some? {
        return Response(Redirect(RegisterPage), Some(Flash(EmailTaken, "danger")), None);
      }
      if form.username.None? || form.email.None? || form.password.None? {
        return Response(ServerFault, None, None);
      }
      var account := Account(nextId, form.username.value, form.email.value, hash(form.password), DefaultRole, true);
      forall i, j | 0 <= i < j < |users + [account]|
        ensures (users + [account])[i].username != (users + [account])[j].username
             && (users + [account])[i].email != (users + [account])[j].email
      {
        if j == |users| {
          assert (users + [account])[i] in users;
        }
      }
      users := users + [account];
      nextId := nextId + 1;
      r := Response(Redirect(LoginPage), Some(Flash(Registered, "success")), None);
    }
  }

  /** Whoever has just registered can log in with the same password,
      provided the checker accepts every password against its own hash. */
  lemma RegisteredCanLogIn(users: seq<Account>, account: Account, password: Option<string>, remember: Option<string>,
                           next: Option<string>, hash: Option<string> -> string, check: (string, Option<string>) -> bool)
    requires ByUsername(users, Some(account.username)).None?
    requires account.passwordHash == hash(password) && account.isActive
    requires check(hash(password), password)
    ensures Login(false, true, LoginForm(Some(account.username), password, remember), next, users + [account], check).session
            == Some(Session(account.id, TruthyString(remember)))
  {
    ByUsernameAppend(users, account, Some(account.username));
  }

  /** Looking up a name not yet in the table, after adding an account under
      that name, finds the new account. */
  lemma {:induction false} ByUsernameAppend(users: seq<Account>, account: Account, name: Option<string>)
    requires ByUsername(users, name).None? && name == Some(account.username)
    ensures ByUsername(users + [account], name) == Some(account)
  {
    if users != [] {
      assert (users + [account])[1..] == users[1..] + [account];
      ByUsernameAppend(users[1..], account, name);
    }
  }
}
