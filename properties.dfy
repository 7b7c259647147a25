/**
  Properties of the state machine in RouteSpec that relate several
  requests: what a reset request lets a later completion do, and what it
  no longer lets anyone do once it has been used or has expired.
*/
module ResetProperties {
  import opened Wrappers
  import opened Hex
  import opened UserSchema
  import opened RouteSpec

  /** The dashboard, logout and password change run only behind the guard. */
  lemma ProtectedHandlersNeedSession(st: State, password: string, salt: seq<byte>, saveOk: bool)
    requires st.session == Anonymous
    ensures DashboardStep(st) == Outcome(st, Redirect(LoginPage, NoMessage))
    ensures LogoutStep(st) == Outcome(st, Redirect(LoginPage, NoMessage))
    ensures ChangePasswordStep(st, password, salt, saveOk) == Outcome(st, Redirect(LoginPage, NoMessage))
  {
  }

  /** Logging out twice is logging out once. */
  lemma LogoutIdempotent(st: State)
    ensures LogoutStep(LogoutStep(st).next) == LogoutStep(st)
  {
  }

  /** A new account can log in with the password it was created with, and with no other. */
  lemma SignupThenLogin(st: State, name: string, email: Email, password: string, salt: seq<byte>, other: string)
    requires Consistent(st)
    requires email != "" && email !in st.users && password != ""
    ensures var s := SignupStep(st, name, email, password, salt, true).next;
            && LoginStep(s, email, password).next.session == Authenticated(email)
            && (other != password ==> LoginStep(s, email, other) == Outcome(s, Redirect(LoginPage, BadCredentials)))
  {
    var s := SignupStep(st, name, email, password, salt, true).next;
    VerifyHash(password, other, salt);
    assert s.users[email].credential == Hash(password, salt);
  }

  /** The only document that holds `token` is the one under `e`. */
  ghost predicate SoleHolder(users: map<Email, User>, e: Email, token: string) {
    forall k | k in users && k != e :: users[k].resetPasswordToken != Some(token)
  }

  /**
    A saved reset request opens the door within the hour: the lookup finds
    a document, the one requested for if no other holds the same token, and
    then the completion logs that user in with the new password.
  */
  lemma ForgotThenReset(st: State, email: Email, bytes: seq<byte>, now: int,
                        password: string, salt: seq<byte>, later: int, found: Option<Email>)
    requires Consistent(st) && email in st.users && |bytes| == 20
    requires later <= now + ResetWindow
    requires FoundBy(ForgotStep(st, email, bytes, now, true).next.users, ResetToken(bytes), later, found)
    ensures found.Some?
    ensures SoleHolder(st.users, email, ResetToken(bytes)) ==> found == Some(email)
    ensures found == Some(email) && password != "" ==>
              var o := ResetStep(ForgotStep(st, email, bytes, now, true).next, ResetToken(bytes),
                                 password, password, salt, later, true, true, found);
              && o.response == Redirect(LoginPage, ResetSucceeded)
              && o.next.session == Authenticated(email)
              && Authenticates(o.next.users, email, password)
  {
    var s := ForgotStep(st, email, bytes, now, true).next;
    assert LiveFor(s.users[email], ResetToken(bytes), later);
  }

  /** After the hour, the same request opens nothing for its user. */
  lemma ForgottenTokenExpires(st: State, email: Email, bytes: seq<byte>, now: int, later: int, found: Option<Email>)
    requires email in st.users && |bytes| == 20
    requires later > now + ResetWindow
    requires SoleHolder(st.users, email, ResetToken(bytes))
    requires FoundBy(ForgotStep(st, email, bytes, now, true).next.users, ResetToken(bytes), later, found)
    ensures found.None?
  {
    var s := ForgotStep(st, email, bytes, now, true).next;
    forall k | k in s.users
      ensures !LiveFor(s.users[k], ResetToken(bytes), later)
    {
      if k != email {
        assert s.users[k] == st.users[k];
      }
    }
  }

  /** A second request replaces the first token: the first no longer opens the document. */
  lemma ForgotSupersedesEarlierToken(st: State, email: Email, first: seq<byte>, second: seq<byte>,
                                     t1: int, t2: int, later: int)
    requires email in st.users && |first| == 20 && |second| == 20 && first != second
    ensures var s1 := ForgotStep(st, email, first, t1, true).next;
            var s2 := ForgotStep(s1, email, second, t2, true).next;
            && !LiveFor(s2.users[email], ResetToken(first), later)
            && (later <= t2 + ResetWindow ==> LiveFor(s2.users[email], ResetToken(second), later))
  {
    HexInjective(first, second);
  }

  /**
    A completion whose confirmation differs mutates nothing, so the same
    token still finds a document for as long as it is unexpired.
  */
  lemma MismatchKeepsTokenUsable(st: State, token: string, password: string, confirm: string, salt: seq<byte>,
                                 now: int, saveOk: bool, loginOk: bool, found: Option<Email>,
                                 later: int, again: Option<Email>)
    requires FoundBy(st.users, token, now, found) && found.Some? && password != confirm
    requires later <= st.users[found.value].resetPasswordExpires.value
    requires FoundBy(ResetStep(st, token, password, confirm, salt, now, saveOk, loginOk, found).next.users,
                     token, later, again)
    ensures again.Some?
  {
    var e := found.value;
    assert LiveFor(st.users[e], token, later);
  }

  /**
    A token is single-use: once a completion has replaced the password, a
    replay never finds that document again, and finds nothing at all if it
    was the token's only holder.
  */
  lemma TokenSingleUse(st: State, token: string, password: string, confirm: string, salt: seq<byte>,
                       now: int, saveOk: bool, loginOk: bool, found: Option<Email>,
                       later: int, replay: Option<Email>)
    requires FoundBy(st.users, token, now, found)
    requires ResetStep(st, token, password, confirm, salt, now, saveOk, loginOk, found).next.users != st.users
    requires FoundBy(ResetStep(st, token, password, confirm, salt, now, saveOk, loginOk, found).next.users,
                     token, later, replay)
    ensures found.Some? && replay != found
    ensures SoleHolder(st.users, found.value, token) ==> replay.None?
  {
    var after := ResetStep(st, token, password, confirm, salt, now, saveOk, loginOk, found).next.users;
    var e := found.value;
    assert after[e].resetPasswordToken.None?;
    if SoleHolder(st.users, e, token) {
      forall k | k in after
        ensures !LiveFor(after[k], token, later)
      {
        if k != e {
          assert after[k] == st.users[k];
        }
      }
    }
  }

  /** After a completed reset the new password logs in and any other no longer does. */
  lemma ResetRevokesOldPassword(st: State, token: string, password: string, salt: seq<byte>,
                                now: int, loginOk: bool, found: Option<Email>, previous: string)
    requires Consistent(st)
    requires FoundBy(st.users, token, now, found) && found.Some? && password != ""
    ensures var o := ResetStep(st, token, password, password, salt, now, true, loginOk, found);
            && Authenticates(o.next.users, found.value, password)
            && (previous != password ==> !Authenticates(o.next.users, found.value, previous))
  {
    VerifyHash(password, previous, salt);
  }

  /**
    A saved password change by the logged-in user replaces that user's
    credential: the new password logs in and any other no longer does.
  */
  lemma ChangePasswordReplacesCredential(st: State, password: string, salt: seq<byte>, previous: string)
    requires Consistent(st) && st.session.Authenticated? && password != ""
    ensures var e := st.session.email;
            var o := ChangePasswordStep(st, password, salt, true);
            && Authenticates(o.next.users, e, password)
            && (previous != password ==> !Authenticates(o.next.users, e, previous))
            && OthersUnchanged(st.users, o.next.users, e)
  {
    VerifyHash(password, previous, salt);
  }

  /**
    The two lookups disagree at the last millisecond: at `now` equal to the
    expiry the form lookup (`$gt`) would not match but the completion
    lookup (`$gte`) still does.
  */
  lemma ExpiryBoundary(u: User, token: string, now: int)
    requires u.resetPasswordToken == Some(token) && u.resetPasswordExpires == Some(now)
    ensures LiveFor(u, token, now) && !LiveStrictlyFor(u, token, now)
  {
  }
}
