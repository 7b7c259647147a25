/**
  The route handlers of routes/user.js as methods of one object that holds
  the collection, the caller's session and the mail handed to the SMTP
  transport. Each handler fetches a document, changes fields on its copy,
  and writes it back only where the source calls `save()` and the save
  succeeds; each method's new state and response are those of the matching
  step function in RouteSpec.
*/
module UserRoutes {
  import opened Wrappers
  import opened Hex
  import opened UserSchema
  import opened RouteSpec

  class UserRouter {
    var users: map<Email, User>
    var session: Session
    var outbox: seq<Mail>

    ghost function Snapshot(): State
      reads this
    {
      State(users, session, outbox)
    }

    ghost predicate Valid()
      reads this
    {
      Consistent(Snapshot())
    }

    constructor ()
      ensures Valid()
      ensures users == map[] && session == Anonymous && outbox == []
    {
      users := map[];
      session := Anonymous;
      outbox := [];
    }

    /** The `isAuthenticated` middleware. */
    method IsAuthenticated() returns (denied: Option<Response>)
      ensures denied == Guard(session)
      ensures denied.None? <==> session.Authenticated?
    {
      if session.Authenticated? {
        denied := None;
      } else {
        denied := Some(Redirect(LoginPage, NoMessage));
      }
    }

    /** GET /dashboard. */
    method Dashboard() returns (r: Response)
      ensures DashboardStep(Snapshot()) == Outcome(Snapshot(), r)
      ensures r == Render(DashboardPage) <==> session.Authenticated?
    {
      var denied := IsAuthenticated();
      if denied.Some? {
        return denied.value;
      }
      r := Render(DashboardPage);
    }

    /** POST /login. */
    method Login(email: Email, password: string) returns (r: Response)
      requires Valid()
      modifies this
      ensures Valid()
      ensures Outcome(Snapshot(), r) == LoginStep(old(Snapshot()), email, password)
    {
      if Authenticates(users, email, password) {
        session := Authenticated(email);
        r := Redirect(DashboardPage, NoMessage);
      } else {
        r := Redirect(LoginPage, BadCredentials);
      }
    }

    /** GET /logout. */
    method Logout() returns (r: Response)
      requires Valid()
      modifies this
      ensures Valid()
      ensures Outcome(Snapshot(), r) == LogoutStep(old(Snapshot()))
    {
      var denied := IsAuthenticated();
      if denied.Some? {
        return denied.value;
      }
      session := Anonymous;
      r := Redirect(LoginPage, NoMessage);
    }

    /** POST /signup. */
    method Signup(name: string, email: Email, password: string, salt: seq<byte>, saveOk: bool)
      returns (r: Response)
      requires Valid()
      modifies this
      ensures Valid()
      ensures Outcome(Snapshot(), r) == SignupStep(old(Snapshot()), name, email, password, salt, saveOk)
    {
      // `register`: the body's `name` is not a schema field and is not stored
      if email == "" {
        return Redirect(SignupPage, Error(MissingUsername));
      }
      if email in users {
        return Redirect(SignupPage, Error(UserExists));
      }
      if password == "" {
        return Redirect(SignupPage, Error(MissingPassword));
      }
      var user := NewUser(email, Hash(password, salt));
      if !saveOk {
        return Redirect(SignupPage, Error(StoreFailure));
      }
      var created := Create(users, user);
      users := created.value;
      // `passport.authenticate('local')` with the credentials just stored
      session := Authenticated(email);
      r := Redirect(LoginPage, AccountCreated);
    }

    /** POST /forgot. */
    method Forgot(email: Email, bytes: seq<byte>, now: int, saveOk: bool) returns (r: Response)
      requires Valid()
      requires |bytes| == 20
      modifies this
      ensures Valid()
      ensures Outcome(Snapshot(), r) == ForgotStep(old(Snapshot()), email, bytes, now, saveOk)
    {
      var token := ResetToken(bytes);
      if email !in users {
        return Redirect(ForgotPage, NoAccount);
      }
      var user := users[email];
      user := user.(resetPasswordToken := Some(token));
      user := user.(resetPasswordExpires := Some(now + ResetWindow));
      if !saveOk {
        return Redirect(ForgotPage, Error(StoreFailure));
      }
      users := Save(users, email, user);
      outbox := outbox + [ResetLink(user.email, token)];
      r := Redirect(LoginPage, InstructionsSent);
    }

    /** POST /password/change. */
    method ChangePassword(password: string, salt: seq<byte>, saveOk: bool) returns (r: Response)
      requires Valid()
      modifies this
      ensures Valid()
      ensures Outcome(Snapshot(), r) == ChangePasswordStep(old(Snapshot()), password, salt, saveOk)
    {
      var denied := IsAuthenticated();
      if denied.Some? {
        return denied.value;
      }
      var e := session.email;
      var user := users[e];
      if password == "" {
        return Redirect(ChangePasswordPage, Error(MissingPassword));
      }
      user := user.(credential := Hash(password, salt));
      // the promise returned by `save()` is neither awaited nor checked
      if saveOk {
        users := Save(users, e, user);
      }
      r := Redirect(LoginPage, PasswordChanged);
    }

    /** GET /reset/:token. */
    method ShowResetForm(token: string, now: int) returns (r: Response)
      ensures ResetFormStep(Snapshot(), token, now) == Outcome(Snapshot(), r)
    {
      r := Render(NewPasswordPage);
    }

    /** POST /reset/:token; `found` is the document the token lookup returned. */
    method Reset(token: string, password: string, confirm: string, salt: seq<byte>,
                 now: int, saveOk: bool, loginOk: bool)
      returns (r: Response, ghost found: Option<Email>)
      requires Valid()
      modifies this
      ensures Valid()
      ensures FoundBy(old(users), token, now, found)
      ensures Outcome(Snapshot(), r) ==
              ResetStep(old(Snapshot()), token, password, confirm, salt, now, saveOk, loginOk, found)
    {
      if !exists k :: k in users && LiveFor(users[k], token, now) {
        found := None;
        return Redirect(ForgotPage, InvalidToken), found;
      }
      var e :| e in users && LiveFor(users[e], token, now);
      found := Some(e);
      var user := users[e];
      if password != confirm {
        return Redirect(ForgotPage, PasswordsDiffer), found;
      }
      if password == "" {
        return Redirect(ForgotPage, UpdateFailed), found;
      }
      user := user.(credential := Hash(password, salt));
      user := user.(resetPasswordToken := None, resetPasswordExpires := None);
      if !saveOk {
        return Redirect(ForgotPage, Error(StoreFailure)), found;
      }
      users := Save(users, e, user);
      if !loginOk {
        return Redirect(ForgotPage, Error(SessionFailure)), found;
      }
      session := Authenticated(user.email);
      outbox := outbox + [ChangeConfirmation(user.email)];
      r := Redirect(LoginPage, ResetSucceeded);
    }
  }

  /**
    A client of the router: sign up, ask for a reset, complete it, and
    replay the same link, which no longer matches.
  */
  method ResetScenario(bytes: seq<byte>, salt: seq<byte>) returns (first: Response, replay: Response)
    requires |bytes| == 20
    ensures first == Redirect(LoginPage, ResetSucceeded)
    ensures replay == Redirect(ForgotPage, InvalidToken)
  {
    var router := new UserRouter();
    var r := router.Signup("Ann", "ann@example.com", "old", salt, true);
    r := router.Forgot("ann@example.com", bytes, 1000, true);
    var token := ResetToken(bytes);
    ghost var found;
    first, found := router.Reset(token, "new", "new", salt, 2000, true, true);
    replay, found := router.Reset(token, "newer", "newer", salt, 3000, true, true);
  }
}
