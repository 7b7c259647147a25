# JSAuth account and password-reset state machine, in Dafny

This project models the account core of a small Express application:
registration, login and logout, password change for a logged-in user, and
password reset by an e-mailed link that holds a random token and is good for
one hour. The handlers in `routes/user.js` work on the user documents of
`models/userschema.js` (stored by Mongoose, with passwords managed by
passport-local-mongoose). Once their callbacks are flattened, each handler is
a short sequence of fallible steps on one document and on the caller's
session.

Modules, leaf first:

- `Wrappers` (`wrappers.dfy`): `Option`, for the fields a document may lack.
- `Hex` (`hex.dfy`): `Buffer.toString('hex')` for the reset token, its
  decoding, and the facts that the token is 40 lower-case hex digits and that
  distinct random buffers give distinct tokens.
- `UserSchema` (`userschema.dfy`): the user document, the stored password
  credential (salt and digest), the collection as a map from e-mail address to
  document, the store invariant (each document filed under its own non-empty
  address, with token and expiry present together or absent together), and
  `Create`/`Save` on the collection.
- `RouteSpec` (`routespec.dfy`): one pure step function per handler. Each takes
  the state (documents, session, outbox of mails handed to the transport) and
  the request's inputs, and yields the new state and the response. The
  response is reduced to a page plus a flash tag.
- `UserRoutes` (`userrouter.dfy`): class `UserRouter` with fields `users`,
  `session` and `outbox`. It has one method per handler, written as the source
  does each step (fetch, change fields on the copy, save). Each method's
  postcondition equates its new state and response with the step function.
  `ResetScenario` is a client that signs up, requests a reset, completes it,
  and replays the link.
- `ResetProperties` (`properties.dfy`): lemmas that relate several requests:
  round trip, single use, expiry, a failed confirmation, a superseded token,
  and revocation of the old password.
- `ResetFormFinding` (`resetform.dfy`): the GET `/reset/:token` check that can
  never reject (see Findings).

Passed in as parameters: the 20 random bytes of the token (`crypto.randomBytes`),
the salt of `setPassword`, the current time `now` in milliseconds (`Date.now()`),
whether `save()` succeeds, whether `req.logIn` succeeds, and which matching
document the token lookup returned. Several documents may hold the same token,
since nothing in the source prevents it. So the lookup result `found` is
a parameter constrained by `FoundBy`: it is `None` exactly when no document
matches.

In these points the model follows the code as written:

- A completion's lookup accepts `resetPasswordExpires >= now` (`$gte`). So a
  link is still good at the millisecond it expires. Only the GET lookup is strict.
- After a successful registration, `passport.authenticate('local')` runs with
  the same credentials. So the new user is logged in before being redirected to
  the login page.
- A reset request for an unknown address redirects to `/forgot` with "No account
  with that email address exists". That differs from the success response, so
  registered addresses can be told apart.
- The password change does not wait for `save()` and reports success even when
  the save failed. The stored credential is then unchanged.
- The GET form lookup never rejects (see Findings).

## Model

| member | source | states |
|---|---|---|
| `Hex.Hex` | routes/user.js:81 | the hex rendering has two characters per byte, each a lower-case hex digit |
| `Hex.UnhexHex` | routes/user.js:81 | decoding the hex rendering of any byte string gives back exactly those bytes |
| `Hex.HexInjective` | routes/user.js:80-81 | two buffers with the same hex rendering are equal, so distinct random buffers give distinct tokens |
| `Hex.ResetToken` | routes/user.js:80-82 | the token made from 20 random bytes is 40 lower-case hex digits and decodes back to those bytes |
| `UserSchema.Hash` | models/userschema.js:18 | the credential `setPassword` stores carries the salt it was made with |
| `UserSchema.Verify` | models/userschema.js:18 | a credential verifies only the password it was made from (the symbolic digest is collision-free) |
| `UserSchema.StoreValid` | models/userschema.js:6-10 | in a valid store every document has a non-empty e-mail address and no two documents share one |
| `UserSchema.VerifyHash` | models/userschema.js:18 | a credential made from a password under any salt verifies that password and no other |
| `UserSchema.NoSharedEmail` | models/userschema.js:9 | in a valid store, two different documents never have the same e-mail address |
| `UserSchema.Create` | models/userschema.js:6-10 | an insert succeeds exactly when the address is not yet stored; it adds that one document, leaves all others, and keeps the store valid |
| `UserSchema.Save` | routes/user.js:93-96 | saving a fetched document replaces only that document and keeps the store valid when the address is unchanged and the document well formed |
| `RouteSpec.Guard` | routes/user.js:10-16 | the handler runs exactly when the session is authenticated; otherwise the response is a redirect to /login |
| `RouteSpec.Authenticates` | routes/user.js:28-32 | an empty address or password never authenticates; authentication implies the address is stored and the password verifies against its credential |
| `RouteSpec.DashboardStep` | routes/user.js:20-22 | the dashboard is rendered exactly when the session is authenticated, and no state changes |
| `RouteSpec.LoginStep` | routes/user.js:28-32 | login authenticates exactly when the address is stored and the password verifies; any failure gives the one same response and leaves the state as it was |
| `RouteSpec.LogoutStep` | routes/user.js:34-43 | afterwards the session is anonymous and nothing else has changed, whether or not it was authenticated; the response is a redirect to /login |
| `RouteSpec.SignupStep` | routes/user.js:50-67 | an existing address is refused and never overwritten; any failure changes nothing; success stores a document with no reset fields whose password then authenticates, and logs that user in |
| `RouteSpec.Requested` | routes/user.js:93-94 | recording a reset request sets the token to the given one and the expiry to now + 3600000 ms, and keeps address, user name and credential |
| `RouteSpec.ForgotStep` | routes/user.js:76-139 | an unknown address changes nothing and sends no mail; a failed save changes nothing; on success only the requested document changes, getting the generated token and an expiry of now + 3600000 ms while keeping address, user name and credential, and the link mail is sent only after the token was saved |
| `RouteSpec.ChangePasswordStep` | routes/user.js:146-165 | without a session nothing happens and the response is a redirect to /login; for a logged-in user an empty password is refused with a redirect to /password/change and nothing changes; for a non-empty password, that user's credential is replaced by the new one exactly when the save succeeds and nothing else changes; success is reported even when the save failed |
| `RouteSpec.LiveFor` | routes/user.js:188 | a match holds the token with both reset fields set; it holds whenever the strict `$gt` match does, and differs from it only when the expiry is exactly now |
| `RouteSpec.FoundBy` | routes/user.js:188-193 | a returned document exists and holds the token; when some document matches, the lookup returns one |
| `RouteSpec.ResetFormStep` | routes/user.js:168-182 | as written, the new-password page is rendered for any token and no state changes |
| `RouteSpec.Consumed` | routes/user.js:202-208 | a completed document has both reset fields cleared, the same address and user name, and the new password's credential under the new salt |
| `RouteSpec.ResetStep` | routes/user.js:184-256 | no matching document, or a failed confirmation, changes nothing; the found document gets the new password with both reset fields cleared in one save exactly when the confirmation matches, the password is non-empty and the save succeeds, even if the login that follows fails; login and confirmation mail happen exactly on full success and only after that save |
| `ResetProperties.ProtectedHandlersNeedSession` | routes/user.js:10-16 | dashboard, logout and password change leave an anonymous caller's state unchanged and redirect to /login |
| `ResetProperties.LogoutIdempotent` | routes/user.js:34-43 | logging out twice has the same effect and response as logging out once |
| `ResetProperties.SignupThenLogin` | routes/user.js:58-66 | after registering a new address, login with that password succeeds and login with any other password fails |
| `ResetProperties.ForgotThenReset` | routes/user.js:93-94 | within the hour after a saved request, the token lookup finds a document, which is the requested one when no other document holds the same token; completion then logs that user in with the new password |
| `ResetProperties.ForgottenTokenExpires` | routes/user.js:188 | after the hour, the token of a request finds no document |
| `ResetProperties.ForgotSupersedesEarlierToken` | routes/user.js:93-94 | a second request for the same address replaces the first token, which then matches no more, and the second token is good for its hour |
| `ResetProperties.MismatchKeepsTokenUsable` | routes/user.js:196-199 | after a completion with differing confirmation, the same token still finds a document until its expiry |
| `ResetProperties.TokenSingleUse` | routes/user.js:207-210 | once a completion has replaced the password, replaying the token never finds that document again, and finds none if it was the only holder |
| `ResetProperties.ResetRevokesOldPassword` | routes/user.js:202-210 | after a completed reset the new password authenticates and every other password no longer does |
| `ResetProperties.ChangePasswordReplacesCredential` | routes/user.js:146-158 | after a saved change by the logged-in user, the new password authenticates, every other password fails, and no other document changes |
| `ResetProperties.ExpiryBoundary` | routes/user.js:188 | at the millisecond of expiry the completion lookup (`$gte`) still matches while the form lookup (`$gt`) does not |
| `UserRoutes.UserRouter.IsAuthenticated` | routes/user.js:10-16 | the middleware lets the handler run exactly when the session is authenticated |
| `UserRoutes.UserRouter.Dashboard` | routes/user.js:20-22 | the response is the dashboard exactly when the session is authenticated, and nothing changes |
| `UserRoutes.UserRouter.Login` | routes/user.js:28-32 | new session and response are those of `LoginStep`; the store invariant is kept |
| `UserRoutes.UserRouter.Logout` | routes/user.js:34-43 | new state and response are those of `LogoutStep`; the store invariant is kept |
| `UserRoutes.UserRouter.Signup` | routes/user.js:50-69 | new state and response are those of `SignupStep`; the store invariant is kept |
| `UserRoutes.UserRouter.Forgot` | routes/user.js:76-139 | new state and response are those of `ForgotStep`; the store invariant is kept |
| `UserRoutes.UserRouter.ChangePassword` | routes/user.js:146-165 | new state and response are those of `ChangePasswordStep`; the store invariant is kept |
| `UserRoutes.UserRouter.ShowResetForm` | routes/user.js:168-182 | the response is that of `ResetFormStep`, and nothing changes |
| `UserRoutes.UserRouter.Reset` | routes/user.js:184-256 | the document it completes is one the lookup may return; new state and response are those of `ResetStep`; the store invariant is kept |
| `UserRoutes.ResetScenario` | routes/user.js:184-214 | sign-up, a reset request and its completion succeed, and a replay of the same link is answered with invalid-or-expired |
| `ResetFormFinding.GuardedResetForm` | routes/user.js:170-175 | the corrected form is shown exactly when some document holds the token with its expiry still ahead; otherwise the caller is sent to /forgot |
| `ResetFormFinding.ExpiredLinkStillShowsForm` | routes/user.js:170-177 | for a store whose only token has expired, the handler as written still shows the form, and the corrected one refuses |
| `ResetFormFinding.GuardedFormPromisesLookup` | routes/user.js:170-188 | when the corrected form is shown, a completion submitted at the same instant finds a document |

## Left out

- Express routing, `res.render` and flash texts: a response is only a page and a flash tag. The double redirect of the `/forgot` final callback (routes/user.js:134-138) is not modelled.
- The render-only handlers `GET /login`, `GET /signup`, `GET /forgot` and `GET /password/change` (routes/user.js:24-26, 45-47, 72-74, 142-144) have no logic beyond the guard and are not modelled.
- Signup error path: the source has no `return` after the error redirect (routes/user.js:59-63), so `passport.authenticate` (routes/user.js:63) still runs after the response was sent. When the address already exists and the submitted password is that account's password, this logs the caller in, so the session changes on an error path. The model does not capture this: its signup step ends at the error redirect and leaves the session as it was.
- Password-change error path: the handler has no `return` after the `setPassword` error redirect (routes/user.js:152-156). There `user` is the callback's undefined second argument, so `user.save()` throws a TypeError after the response has gone out, and nothing catches it. The rejection of the un-awaited `user.save()` on a failed save is not handled either. Neither exception is modelled: the step ends at the error redirect, or at the success response with the store unchanged.
- A failure of the `logIn` inside `passport.authenticate` after registration is not modelled, and neither is the `err` callback of `req.logout` (routes/user.js:35-40). After registration the user is logged in; after logout the session is anonymous.
- Mongoose queries never fail in the model. Only `save()` can fail, through a flag. The database-error branches (routes/user.js:101-104, 178-181, 220-222) are not modelled. A `findOne` by the session's address that returns no document is modelled (the TypeError caught at routes/user.js:160-163).
- Password hashing: pbkdf2 with a salt is replaced by a symbolic credential that is collision-free by construction. The constant-time comparison is not modelled. `setPassword` fails only on an empty password (passport-local-mongoose's missing-password error); other hashing errors are not modelled.
- passport-local-mongoose's `register`: its checks (missing address, existing address, missing password, failed insert) are modelled as the passport-local-mongoose dependency performs them; its code is not part of the application. passport-local refuses empty credentials.
- `crypto.randomBytes` failing (routes/user.js:80-83) is not modelled: the callback renders `buf` before it looks at `err`, so the source has no working error path there.
- Mail: the SMTP transport (routes/user.js:108-131, 227-247) is reduced to a record of the message handed to it. Its result is ignored by the source and does not change the response. The link's host, the sender and the text are not modelled.
- `name` from the signup form is never stored: the schema's field is `userName`, and Mongoose drops fields the schema lacks. The schema's `password` field (models/userschema.js:11-14) is never written and is not modelled.
- Sessions hold the user's e-mail address (passport serialisation by username); the session store, cookies and `main.js` bootstrap are not modelled.
- Concurrency: two completions racing on one token through the asynchronous waterfall are out of scope; the model is sequential.
- Reset tokens are not unique across documents in the source. Lemmas that need "this user and no other" take that as an explicit hypothesis (`SoleHolder`).

## Findings

| source | as written | input that shows it | evidently intended | confidence | as-written member | corrected member |
|---|---|---|---|---|---|---|
| routes/user.js:170-175 | `find` yields a list, and a list is never falsy, so `!user` never holds and the form is rendered for every token | a token that has expired (or was never issued): no document matches, yet the new-password form is rendered | redirect to `/forgot` with "invalid or expired" unless a document holds the token with `resetPasswordExpires > now` | not executed | `RouteSpec.ResetFormStep`, shown by `ResetFormFinding.ExpiredLinkStillShowsForm` | `ResetFormFinding.GuardedResetForm`, with `ResetFormFinding.GuardedFormPromisesLookup` |

The completion handler checks the token again, so the as-written form only
shows a page. The reset state machine is the same with either version of the
form. `UserRouter.ShowResetForm` keeps the handler as written.
