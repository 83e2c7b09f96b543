/**
 * Login and logout (routes/auth.js). Password checking is bcrypt in the
 * application; here it is the parameter `matches(password, hash)`, about
 * which nothing is assumed.
 */
module Login {
  import opened Wrappers
  import opened Store
  import opened AccessControl

  const InvalidCredentials := "Credenciales inválidas"
  const ServerFailure := "Ocurrió un error en el servidor"

  /** A re-rendered login form, with or without an error line, or a redirect. */
  datatype LoginReply = LoginForm(error: Option<string>) | Go(url: string)

  /**
   * `select * from users where username = ? limit 1`, then `users[0]`:
   * the first row, in table order, whose user name is exactly `username`.
   */
  function FirstByUsername(users: seq<User>, username: string): (r: Option<User>)
    ensures r.None? <==> forall i :: 0 <= i < |users| ==> users[i].username != username
    ensures r.Some? ==> exists i :: 0 <= i < |users| && users[i] == r.value && users[i].username == username
                                    && forall j :: 0 <= j < i ==> users[j].username != username
  {
    if users == [] then None
    else if users[0].username == username then Some(users[0])
    else
      var r := FirstByUsername(users[1..], username);
      assert r.Some? ==> exists i :: 1 <= i < |users| && users[i] == r.value && users[i].username == username
                                   && forall j :: 0 <= j < i ==> users[j].username != username by {
        if r.Some? {
          var i :| 0 <= i < |users[1..]| && users[1..][i] == r.value && users[1..][i].username == username
                   && forall j :: 0 <= j < i ==> users[1..][j].username != username;
          assert users[i + 1] == r.value;
          forall j | 0 <= j < i + 1 ensures users[j].username != username {
            if j > 0 { assert users[j] == users[1..][j - 1]; }
          }
        }
      }
      r
  }

  /** The outcome of checking credentials. */
  datatype Verdict = Authenticated(user: SessionUser) | Rejected(message: string)

  /**
   * The credential branch of `POST /login`: a failed user query gives the
   * server-error message; no row with that name and a wrong password give
   * the same invalid-credentials message; otherwise the session user is
   * built from the row found.
   */
  function CheckCredentials(lookup: Option<seq<User>>, username: string, password: string,
                            matches: (string, string) -> bool): (v: Verdict)
    ensures lookup.None? ==> v == Rejected(ServerFailure)
    ensures lookup.Some? ==>
      match FirstByUsername(lookup.value, username)
      case None => v == Rejected(InvalidCredentials)
      case Some(u) =>
        v == if matches(password, u.passwordHash) then Authenticated(SessionUser(u.id, u.username, u.role))
             else Rejected(InvalidCredentials)
  {
    if lookup.None? then Rejected(ServerFailure)
    else
      var found := FirstByUsername(lookup.value, username);
      if found.None? || !matches(password, found.value.passwordHash) then Rejected(InvalidCredentials)
      else Authenticated(SessionUser(found.value.id, found.value.username, found.value.role))
  }

  /**
   * Non-enumeration: an unknown user name and a known one with the wrong
   * password cannot be told apart by the reply.
   */
  lemma UnknownUserLooksLikeWrongPassword(users: seq<User>, unknown: string, known: string,
                                          p1: string, p2: string, matches: (string, string) -> bool)
    requires forall i :: 0 <= i < |users| ==> users[i].username != unknown
    requires FirstByUsername(users, known).Some? && !matches(p2, FirstByUsername(users, known).value.passwordHash)
    ensures CheckCredentials(Some(users), unknown, p1, matches) == CheckCredentials(Some(users), known, p2, matches)
    ensures CheckCredentials(Some(users), unknown, p1, matches) == Rejected(InvalidCredentials)
  {
  }

  /**
   * Duplicate user names are not prevented, and only the first row with the
   * name is checked: a later row whose hash would match never logs anyone in.
   */
  lemma OnlyFirstRowIsTried(first: User, rest: seq<User>, password: string, matches: (string, string) -> bool)
    requires !matches(password, first.passwordHash)
    ensures CheckCredentials(Some([first] + rest), first.username, password, matches) == Rejected(InvalidCredentials)
  {
  }

  /** `GET /login`: a logged-in user is sent home, anyone else gets the form. */
  function LoginPage(user: Option<SessionUser>): (r: LoginReply)
    ensures r == Go("/") <==> user.Some?
    ensures user.None? ==> r == LoginForm(None)
  {
    if user.Some? then Go("/") else LoginForm(None)
  }

  /**
   * `POST /login`. `lookup` is the `users` table as the query sees it, in
   * table order, or nothing when the query failed.
   * On success the session user is set and the browser goes to "/"; on any
   * failure the form is shown again with the message and the session is
   * left as it was.
   */
  method PostLogin(session: Session, lookup: Option<seq<User>>, username: string, password: string,
                   matches: (string, string) -> bool) returns (reply: LoginReply)
    modifies session
    ensures match CheckCredentials(lookup, username, password, matches)
            case Authenticated(u) => session.user == Some(u) && reply == Go("/")
            case Rejected(m) => session.user == old(session.user) && reply == LoginForm(Some(m))
  {
    var verdict := CheckCredentials(lookup, username, password, matches);
    match verdict
    case Rejected(m) =>
      reply := LoginForm(Some(m));
    case Authenticated(u) =>
      session.user := Some(u);
      reply := Go("/");
  }

  /** `GET /logout`: the session is destroyed and the browser goes to the login page. */
  method Logout(session: Session) returns (reply: LoginReply)
    modifies session
    ensures session.user == None && reply == Go(LoginUrl)
  {
    session.user := None;
    reply := Go(LoginUrl);
  }
}
