/**
  The account and password-reset state machine of routes/user.js, one pure
  step function per route handler. A step takes the state before the
  request (documents, the caller's session, the mail sent so far) and
  yields the state after it together with the response, reduced to the page
  redirected to or rendered and the flash message set.

  What the handlers get from outside is passed in: the random bytes, the
  salt, the clock (`now`, in milliseconds), whether `save()` and `logIn`
  succeed, and, for the token lookup, which matching document `findOne`
  returned.
*/
module RouteSpec {
  import opened Wrappers
  import opened Hex
  import opened UserSchema

  /** `Date.now() + 3600000`: a reset link is good for one hour. */
  const ResetWindow: int := 3600000

  datatype Session = Anonymous | Authenticated(email: Email)

  /** One message handed to the SMTP transport. */
  datatype Mail = ResetLink(to: Email, token: string) | ChangeConfirmation(to: Email)

  datatype Page = LoginPage | SignupPage | ForgotPage | DashboardPage | ChangePasswordPage | NewPasswordPage

  /** Why an operation failed, as the `err` the handlers flash. */
  datatype Cause = MissingUsername | UserExists | MissingPassword | MissingDocument | StoreFailure | SessionFailure

  datatype Flash =
    | NoMessage
    | Error(cause: Cause)
    | BadCredentials
    | AccountCreated
    | NoAccount
    | InstructionsSent
    | PasswordChanged
    | InvalidToken
    | PasswordsDiffer
    | UpdateFailed
    | ResetSucceeded

  datatype Response = Redirect(page: Page, flash: Flash) | Render(page: Page)

  datatype State = State(users: map<Email, User>, session: Session, outbox: seq<Mail>)

  datatype Outcome = Outcome(next: State, response: Response)

  /** The store is valid and a session names a stored user. */
  ghost predicate Consistent(st: State) {
    StoreValid(st.users) && (st.session.Authenticated? ==> st.session.email in st.users)
  }

  /** Every document except the one under `id` is as it was, and none appeared or vanished. */
  ghost predicate OthersUnchanged(before: map<Email, User>, after: map<Email, User>, id: Email) {
    after.Keys == before.Keys && forall e | e in before && e != id :: after[e] == before[e]
  }

  /** passport-local with passport-local-mongoose's `authenticate`. */
  predicate Authenticates(users: map<Email, User>, email: Email, password: string): (ok: bool)
    ensures email == "" || password == "" ==> !ok
    ensures ok ==> email in users && Verify(password, users[email].credential)
  {
    email != "" && password != "" && email in users && Verify(password, users[email].credential)
  }

  /** The `isAuthenticated` middleware: `None` lets the handler run. */
  function Guard(s: Session): (denied: Option<Response>)
    ensures denied.None? <==> s.Authenticated?
    ensures denied.Some? ==> denied.value == Redirect(LoginPage, NoMessage)
  {
    if s.Authenticated? then None else Some(Redirect(LoginPage, NoMessage))
  }

  /** GET /dashboard. */
  function DashboardStep(st: State): (o: Outcome)
    ensures o.next == st
    ensures o.response == Render(DashboardPage) <==> st.session.Authenticated?
  {
    match Guard(st.session)
    case Some(r) => Outcome(st, r)
    case None => Outcome(st, Render(DashboardPage))
  }

  /** POST /login: one failure response whether the address or the password is wrong. */
  function LoginStep(st: State, email: Email, password: string): (o: Outcome)
    ensures Consistent(st) ==> Consistent(o.next)
    ensures o.next.users == st.users && o.next.outbox == st.outbox
    ensures Authenticates(st.users, email, password) ==>
              o.next.session == Authenticated(email) && o.response == Redirect(DashboardPage, NoMessage)
    ensures !Authenticates(st.users, email, password) ==> o == Outcome(st, Redirect(LoginPage, BadCredentials))
  {
    if Authenticates(st.users, email, password) then
      Outcome(st.(session := Authenticated(email)), Redirect(DashboardPage, NoMessage))
    else
      Outcome(st, Redirect(LoginPage, BadCredentials))
  }

  /** GET /logout: the guard, then `req.logout`. */
  function LogoutStep(st: State): (o: Outcome)
    ensures Consistent(st) ==> Consistent(o.next)
    ensures o.next == st.(session := Anonymous)
    ensures o.response == Redirect(LoginPage, NoMessage)
  {
    match Guard(st.session)
    case Some(r) => Outcome(st, r)
    case None => Outcome(st.(session := Anonymous), Redirect(LoginPage, NoMessage))
  }

  /** Did a step create the account it was asked to create? */
  predicate SignupSucceeds(st: State, email: Email, password: string, saveOk: bool) {
    email != "" && email !in st.users && password != "" && saveOk
  }

  /**
    POST /signup: `register` (missing address, existing address, missing
    password, failed insert, in that order), then `passport.authenticate`
    with the same credentials. `name` is not a field of the schema and is
    dropped.
  */
  function SignupStep(st: State, name: string, email: Email, password: string, salt: seq<byte>, saveOk: bool): (o: Outcome)
    ensures Consistent(st) ==> Consistent(o.next)
    ensures o.next.outbox == st.outbox
    ensures email != "" && email in st.users ==> o == Outcome(st, Redirect(SignupPage, Error(UserExists)))
    ensures !SignupSucceeds(st, email, password, saveOk) ==> o.next == st && o.response.page == SignupPage
    ensures SignupSucceeds(st, email, password, saveOk) ==>
              && o.next.users == st.users[email := NewUser(email, Hash(password, salt))]
              && Authenticates(o.next.users, email, password)
              && o.next.session == Authenticated(email)
              && o.response == Redirect(LoginPage, AccountCreated)
  {
    if email == "" then Outcome(st, Redirect(SignupPage, Error(MissingUsername)))
    else if email in st.users then Outcome(st, Redirect(SignupPage, Error(UserExists)))
    else if password == "" then Outcome(st, Redirect(SignupPage, Error(MissingPassword)))
    else if !saveOk then Outcome(st, Redirect(SignupPage, Error(StoreFailure)))
    else
      var created := Create(st.users, NewUser(email, Hash(password, salt)));
      Outcome(State(created.value, Authenticated(email), st.outbox), Redirect(LoginPage, AccountCreated))
  }

  /** The document after a reset request was recorded on it. */
  function Requested(u: User, token: string, now: int): (r: User)
    ensures r.resetPasswordToken == Some(token) && r.resetPasswordExpires == Some(now + ResetWindow)
    ensures ResetFieldsPaired(r)
    ensures r.email == u.email && r.userName == u.userName && r.credential == u.credential
  {
    u.(resetPasswordToken := Some(token), resetPasswordExpires := Some(now + ResetWindow))
  }

  /**
    POST /forgot: token from the random bytes, lookup by address, record
    token and expiry, `save()`, and only then the mail with the link.
  */
  function ForgotStep(st: State, email: Email, bytes: seq<byte>, now: int, saveOk: bool): (o: Outcome)
    requires |bytes| == 20
    ensures Consistent(st) ==> Consistent(o.next)
    ensures o.next.session == st.session
    ensures email !in st.users ==> o == Outcome(st, Redirect(ForgotPage, NoAccount))
    ensures !saveOk ==> o.next == st && o.response.page == ForgotPage
    ensures o.next.users == st.users || OthersUnchanged(st.users, o.next.users, email)
    ensures email in st.users && saveOk ==>
              && o.next.users[email].resetPasswordToken == Some(ResetToken(bytes))
              && o.next.users[email].resetPasswordExpires == Some(now + ResetWindow)
              && o.next.users[email].credential == st.users[email].credential
              && o.next.users[email].userName == st.users[email].userName
              && o.next.users[email].email == st.users[email].email
              && o.next.outbox == st.outbox + [ResetLink(st.users[email].email, ResetToken(bytes))]
              && o.response == Redirect(LoginPage, InstructionsSent)
    ensures o.next.outbox != st.outbox ==>
              saveOk && email in o.next.users && LiveFor(o.next.users[email], ResetToken(bytes), now)
  {
    var token := ResetToken(bytes);
    if email !in st.users then Outcome(st, Redirect(ForgotPage, NoAccount))
    else if !saveOk then Outcome(st, Redirect(ForgotPage, Error(StoreFailure)))
    else
      var u := st.users[email];
      Outcome(st.(users := Save(st.users, email, Requested(u, token, now)),
                  outbox := st.outbox + [ResetLink(u.email, token)]),
              Redirect(LoginPage, InstructionsSent))
  }

  /**
    POST /password/change: the guard, `findOne` by the session's address,
    `setPassword`, then `save()` whose result is not awaited, so success is
    reported whether or not it was saved.
  */
  function ChangePasswordStep(st: State, password: string, salt: seq<byte>, saveOk: bool): (o: Outcome)
    ensures Consistent(st) ==> Consistent(o.next)
    ensures o.next.session == st.session && o.next.outbox == st.outbox
    ensures !st.session.Authenticated? ==> o == Outcome(st, Redirect(LoginPage, NoMessage))
    ensures st.session.Authenticated? && st.session.email in st.users && password == "" ==>
              o == Outcome(st, Redirect(ChangePasswordPage, Error(MissingPassword)))
    ensures o.next.users != st.users ==>
              var e := st.session.email;
              && st.session.Authenticated? && e in st.users && password != "" && saveOk
              && o.next.users == st.users[e := st.users[e].(credential := Hash(password, salt))]
    ensures st.session.Authenticated? && st.session.email in st.users && password != "" ==>
              var e := st.session.email;
              && o.response == Redirect(LoginPage, PasswordChanged)
              && o.next.users == (if saveOk then st.users[e := st.users[e].(credential := Hash(password, salt))]
                                  else st.users)
  {
    match Guard(st.session)
    case Some(r) => Outcome(st, r)
    case None =>
      var e := st.session.email;
      if e !in st.users then Outcome(st, Redirect(ChangePasswordPage, Error(MissingDocument)))
      else if password == "" then Outcome(st, Redirect(ChangePasswordPage, Error(MissingPassword)))
      else
        var users := if saveOk then Save(st.users, e, st.users[e].(credential := Hash(password, salt))) else st.users;
        Outcome(st.(users := users), Redirect(LoginPage, PasswordChanged))
  }

  /** The POST lookup: this token and `resetPasswordExpires >= now` (`$gte`). */
  predicate LiveFor(u: User, token: string, now: int): (ok: bool)
    ensures ok ==> u.resetPasswordToken == Some(token) && ResetFieldsPaired(u)
    ensures LiveStrictlyFor(u, token, now) ==> ok
    ensures ok && !LiveStrictlyFor(u, token, now) ==> u.resetPasswordExpires == Some(now)
  {
    u.resetPasswordToken == Some(token) && u.resetPasswordExpires.Some? && u.resetPasswordExpires.value >= now
  }

  /** The GET lookup: this token and `resetPasswordExpires > now` (`$gt`). */
  predicate LiveStrictlyFor(u: User, token: string, now: int) {
    u.resetPasswordToken == Some(token) && u.resetPasswordExpires.Some? && u.resetPasswordExpires.value > now
  }

  /** What `findOne` may return: a matching document, or nothing when none matches. */
  ghost predicate FoundBy(users: map<Email, User>, token: string, now: int, found: Option<Email>): (ok: bool)
    ensures ok && found.Some? ==> found.value in users && users[found.value].resetPasswordToken == Some(token)
    ensures ok && (exists e :: e in users && LiveFor(users[e], token, now)) ==> found.Some?
  {
    match found
    case None => forall e | e in users :: !LiveFor(users[e], token, now)
    case Some(e) => e in users && LiveFor(users[e], token, now)
  }

  /** GET /reset/:token as written: `find` yields a list, which is never falsy, so the form is always shown. */
  function ResetFormStep(st: State, token: string, now: int): (o: Outcome)
    ensures o.next == st && o.response == Render(NewPasswordPage)
  {
    Outcome(st, Render(NewPasswordPage))
  }

  /** The document once a reset has been completed on it. */
  function Consumed(u: User, password: string, salt: seq<byte>): (r: User)
    ensures r.resetPasswordToken.None? && r.resetPasswordExpires.None?
    ensures r.email == u.email && r.userName == u.userName
    ensures r.credential == Hash(password, salt) && Verify(password, r.credential)
  {
    u.(credential := Hash(password, salt), resetPasswordToken := None, resetPasswordExpires := None)
  }

  /** Did a completion get as far as the confirmation mail? */
  predicate ResetSucceeds(password: string, confirm: string, saveOk: bool, loginOk: bool, found: Option<Email>) {
    found.Some? && password == confirm && password != "" && saveOk && loginOk
  }

  /**
    POST /reset/:token: lookup, confirmation check, `setPassword`, clearing
    both reset fields, one `save()`, `logIn`, and the confirmation mail.
  */
  function ResetStep(st: State, token: string, password: string, confirm: string, salt: seq<byte>,
                     now: int, saveOk: bool, loginOk: bool, found: Option<Email>): (o: Outcome)
    requires FoundBy(st.users, token, now, found)
    ensures Consistent(st) ==> Consistent(o.next)
    ensures found.None? ==> o == Outcome(st, Redirect(ForgotPage, InvalidToken))
    ensures password != confirm ==> o.next == st
    ensures found.Some? && password != confirm ==> o.response == Redirect(ForgotPage, PasswordsDiffer)
    ensures o.next.users != st.users ==>
              && found.Some? && password == confirm && password != "" && saveOk
              && o.next.users == st.users[found.value := Consumed(st.users[found.value], password, salt)]
    ensures found.Some? && password == confirm && password != "" && saveOk ==>
              o.next.users == st.users[found.value := Consumed(st.users[found.value], password, salt)]
    ensures ResetSucceeds(password, confirm, saveOk, loginOk, found) ==>
              var u := st.users[found.value];
              && o.next.users != st.users
              && o.next.session == Authenticated(u.email)
              && o.next.outbox == st.outbox + [ChangeConfirmation(u.email)]
              && o.response == Redirect(LoginPage, ResetSucceeded)
    ensures !ResetSucceeds(password, confirm, saveOk, loginOk, found) ==>
              o.next.session == st.session && o.next.outbox == st.outbox && o.response.page == ForgotPage
  {
    match found
    case None => Outcome(st, Redirect(ForgotPage, InvalidToken))
    case Some(e) =>
      if password != confirm then Outcome(st, Redirect(ForgotPage, PasswordsDiffer))
      else if password == "" then Outcome(st, Redirect(ForgotPage, UpdateFailed))
      else if !saveOk then Outcome(st, Redirect(ForgotPage, Error(StoreFailure)))
      else
        var u := st.users[e];
        var users := Save(st.users, e, Consumed(u, password, salt));
        if !loginOk then Outcome(st.(users := users), Redirect(ForgotPage, Error(SessionFailure)))
        else Outcome(State(users, Authenticated(u.email), st.outbox + [ChangeConfirmation(u.email)]),
                     Redirect(LoginPage, ResetSucceeded))
  }
}
