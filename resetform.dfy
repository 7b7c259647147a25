/**
  GET /reset/:token looks the token up with `find`, which yields a list;
  a list is never falsy, so the "invalid or expired" branch cannot be
  taken and the new-password form is shown for any token. The guarded
  handler below is the check as evidently intended: the form is shown only
  when some document holds the token and its expiry is still ahead.
*/
module ResetFormFinding {
  import opened Wrappers
  import opened UserSchema
  import opened RouteSpec

  /** The corrected GET handler, with the strict `$gt` comparison of the source's query. */
  function GuardedResetForm(st: State, token: string, now: int): (r: Response)
    ensures r == Render(NewPasswordPage) <==> exists e :: e in st.users && LiveStrictlyFor(st.users[e], token, now)
    ensures r != Render(NewPasswordPage) ==> r == Redirect(ForgotPage, InvalidToken)
  {
    if exists e :: e in st.users && LiveStrictlyFor(st.users[e], token, now) then Render(NewPasswordPage)
    else Redirect(ForgotPage, InvalidToken)
  }

  /**
    A link whose token expired is still answered with the form as written,
    though no document matches it; the guarded handler turns it away.
  */
  lemma ExpiredLinkStillShowsForm()
    ensures var u := User("a@example.com", None, Hash("pw", []), Some("ab"), Some(0));
            var st := State(map["a@example.com" := u], Anonymous, []);
            && FoundBy(st.users, "ab", 1, None)
            && ResetFormStep(st, "ab", 1).response == Render(NewPasswordPage)
            && GuardedResetForm(st, "ab", 1) == Redirect(ForgotPage, InvalidToken)
  {
    var u := User("a@example.com", None, Hash("pw", []), Some("ab"), Some(0));
    var st := State(map["a@example.com" := u], Anonymous, []);
    assert !LiveStrictlyFor(st.users["a@example.com"], "ab", 1);
  }

  /**
    With the guard, showing the form promises that a completion submitted
    at the same instant finds a document.
  */
  lemma GuardedFormPromisesLookup(st: State, token: string, now: int, found: Option<Email>)
    requires GuardedResetForm(st, token, now) == Render(NewPasswordPage)
    requires FoundBy(st.users, token, now, found)
    ensures found.Some?
  {
    var e :| e in st.users && LiveStrictlyFor(st.users[e], token, now);
    assert LiveFor(st.users[e], token, now);
  }
}
