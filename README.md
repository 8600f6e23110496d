# Session authentication for a Next.js app, modelled in Dafny

The application authenticates users with three API routes and a route
guard:

- `POST /api/auth/signup` validates `{name, email, password}` in a fixed
  order, refuses an email that is already taken, appends the new user (with
  a bcrypt hash of the password) to an in-memory array, and answers 201 with
  the public profile `{id, name, email}` and an HTTP-only `token` cookie
  holding a seven-day JWT.
- `POST /api/auth/signin` checks `{email, password}`, finds the user by
  email, compares the password, and answers 200 with the profile and the
  same cookie. An unknown email and a wrong password both get 401
  "Invalid credentials".
- `GET /api/auth/me` reads the `token` cookie, verifies it, looks the
  token's `userId` up and answers with the profile (401 without a cookie or
  with a bad token, 404 when no user has that id).
- The middleware redirects requests for paths starting with `/dashboard` to
  `/login` unless they carry a token that verifies; every other path passes.

The two libraries are abstract primitives. `Bcrypt.Hash` is a salted
one-way function whose only reader is `Bcrypt.Compare`, and
`Compare(p, Hash(q, salt))` holds exactly when `p == q`. `Jwt.Sign` and
`Jwt.Verify` form a pair: a token verifies under a key only if it
carries that key's signature over its own claims, and only before its
`exp` claim. Tokens from `Sign` verify for exactly seven days. Time, the random
salt, `Date.now()` ids and the environment variables are parameters.

Modules follow the source files. `Signup` keeps the route's array as the
`seq<User>` field of class `Signup.Route`. Its `Post` method updates that
field and is proved against the function `Signup.Handle`, which states
the route's promises. Signin, who-am-I and the guard change nothing, so
they are functions. Each route module declares its own `users` array. The
model keeps these arrays apart:

- `Signin.Store` and `Me.Store` are the empty arrays those modules declare
  and never write.
- `Signin.PostAsWritten` and `Me.GetAsWritten` run the handlers against
  those arrays.
- `Signin.Post` and `Me.Get` take the array as a parameter.

`Flows` compares the two. The app's own pages expect a signed-up user to
be found: app/(auth)/login/page.tsx:78-87 signs in and then opens
`/dashboard`, and app/dashboard/page.tsx:25-30 asks `/api/auth/me` and
sends any answer that is not OK back to `/login`. The comment at
app/api/auth/signin/route.ts:6 says the array "should be the same". The
code does otherwise: those routes never find anyone. The model follows
the code and records the difference under "## Findings".

Helpers in `Js` give the JavaScript semantics the handlers depend on:

- `Find`: `Array.prototype.find`, returning the first match.
- `Utf16Length`: `String.prototype.length`, which counts UTF-16 code
  units, so a 5-character password with one emoji passes the
  6-character check (`Signup.AstralPasswordAccepted`).
- `Truthy`: `!field` on an absent or string field.
- `StartsWith`: a raw prefix test, so `/dashboardX` is guarded.

## Model

| member | source | states |
|---|---|---|
| Js.FindIndex | app/api/auth/signup/route.ts:28 | the index is -1 exactly when no element matches, otherwise it matches and no earlier element does |
| Js.Find | app/api/auth/signup/route.ts:28 | `undefined` exactly when nothing matches; otherwise the first matching element |
| Js.Utf16Length | app/api/auth/signup/route.ts:20 | `password.length` lies between the character count and twice it, equals the character count when every character is in the BMP, and is 2 for a single non-BMP character |
| Js.Utf16LengthAppend | app/api/auth/signup/route.ts:20 | the length of a concatenation is the sum of the lengths, so with the single-character case it is the number of UTF-16 code units |
| Bcrypt.Hash | app/api/auth/signup/route.ts:37 | the hash has cost 12 and `bcrypt.compare` accepts exactly the hashed password |
| Jwt.Key | app/api/auth/signup/route.ts:52 | the key is `JWT_SECRET` when truthy, else `'fallback-secret'`; never empty |
| Jwt.Sign | app/api/auth/signup/route.ts:50-54 | the token carries `{userId, email}` and expires seven days after issue |
| Jwt.Verify | app/api/auth/me/route.ts:19 | a verified token was signed with this key over the returned payload, and has not expired |
| Jwt.SignThenVerify | app/api/auth/me/route.ts:19 | a signed token verifies with its key, giving back its payload, until exactly seven days after issue |
| Jwt.OtherKeyRejected | middleware.ts:15 | a token never verifies under a key other than the one it was signed with |
| Users.FindByEmail | app/api/auth/signin/route.ts:22 | `None` exactly when no record has that email; otherwise the first record with it |
| Users.FindById | app/api/auth/me/route.ts:25 | `None` exactly when no record has that id; otherwise the first record with it |
| Http.SessionCookie | app/api/auth/signup/route.ts:65-70 | cookie `token`, httpOnly, sameSite lax, secure only in production, maxAge 604800000 |
| Http.CookieOutlivesToken | app/api/auth/signup/route.ts:69 | as written, the browser still sends the session cookie after its token stops verifying |
| Http.IntendedSessionCookie | app/api/auth/signup/route.ts:65-70 | the same cookie with the seven-day maxAge in seconds that the comment describes |
| Http.IntendedCookieMatchesToken | app/api/auth/signup/route.ts:69 | with that maxAge, the browser sends the cookie exactly while its token verifies |
| Http.SessionToken | app/api/auth/me/route.ts:9-11 | a token is present exactly when the `token` cookie exists and is not empty |
| Signup.Handle | app/api/auth/signup/route.ts:8-80 | a body that is not JSON or is `null` gives 500; then missing field, short password and taken email give their 400s, in that order, with the array unchanged; 201 exactly when every check passes, appending one record that stores `bcrypt.hash(password, 12)` with the drawn salt, not the password, with all earlier records kept, returning `{id, name, email}` and the session cookie for `{userId, email}`; unique emails are preserved |
| Signup.Route.constructor | app/api/auth/signup/route.ts:6 | the module's array starts empty |
| Signup.Route.Post | app/api/auth/signup/route.ts:8-72 | the response and the new array are those of `Handle` on the old array; the unique-email invariant is kept |
| Signup.Replay | app/api/auth/signup/route.ts:28-47 | requests handled one after another only extend the array and keep emails unique |
| Signup.SecondSignupRefused | app/api/auth/signup/route.ts:28-34 | a second complete signup with an email that just succeeded gets 400 "User already exists with this email" and changes nothing |
| Signup.AstralPasswordAccepted | app/api/auth/signup/route.ts:20-25 | a five-character password containing one non-BMP character passes the length check and the signup succeeds |
| Signup.NewUserFound | app/api/auth/signup/route.ts:28-47 | after a successful signup, looking up its email in the new array finds the appended record |
| Signup.RefusedLeavesNoTrace | app/api/auth/signup/route.ts:13-34 | after a refused signup every later request behaves as if it had not happened |
| Signin.Post | app/api/auth/signin/route.ts:9-70 | a body that is not JSON or is `null` gives 500, a missing field 400; a complete request with an unknown email or a wrong password gets 401 "Invalid credentials", and every 401 is that response; 200 exactly when the first record with the email matches the password, returning that record's profile and a fresh session cookie |
| Signin.PostAsWritten | app/api/auth/signin/route.ts:7 | against the module's own array no request succeeds, and every complete request gets 401 |
| Signin.NoAccountEnumeration | app/api/auth/signin/route.ts:22-37 | an unknown email and a wrong password produce the same response |
| Me.Get | app/api/auth/me/route.ts:7-43 | no cookie gives 401 "Not authenticated", a token that fails verification 401 "Invalid token", an unknown id 404; a verified token whose `userId` is stored gets 200 with the profile of the first record with that id, no message and no cookie; only that case succeeds |
| Me.GetAsWritten | app/api/auth/me/route.ts:5 | against the module's own array no request succeeds, and every verified token gets 404 |
| Middleware.Guard | middleware.ts:5-23 | non-dashboard paths pass; dashboard paths pass exactly when a token is present and verifies, otherwise redirect to `/login` |
| Middleware.DecidedByPathAndVerification | middleware.ts:5-23 | the decision depends only on the path, token presence and the verify result |
| Middleware.RawPrefix | middleware.ts:7 | `/dashboardX` is guarded and `/Dashboard` is not |
| Middleware.GarbageCookieRedirects | middleware.ts:17-19 | a cookie that is not a token redirects to `/login` instead of failing |
| Flows.SignupThenMeAsWritten | app/api/auth/me/route.ts:25-31 | a fresh signup's cookie gets 404 "User not found" from the who-am-I route as written |
| Flows.SignupThenMeShared | app/api/auth/me/route.ts:25-35 | reading signup's array, the who-am-I route returns the profile signup returned, if no earlier user shares the id |
| Flows.SignupThenSigninAsWritten | app/api/auth/signin/route.ts:22-28 | right after signup, signing in as written gets 401 whatever the password |
| Flows.SignupThenSigninShared | app/api/auth/signin/route.ts:22-52 | reading signup's array, signing in succeeds with the same profile exactly when the password is the one signed up with, and otherwise gets the uniform 401 |
| Flows.DashboardAdmitsUnknownUser | middleware.ts:14-16 | after a signup the guard admits the dashboard while the who-am-I route as written answers 404 |
| Flows.ExpiredTokenRefused | middleware.ts:14-19 | a token presented one second after its seven days is redirected by the guard and gets 401 "Invalid token" from the who-am-I route |

## Findings

| source | as written | input that shows it | evidently intended | confidence | as-written member | corrected member |
|---|---|---|---|---|---|---|
| app/api/auth/signin/route.ts:7 | signin searches its own `users` array, which nothing ever appends to | sign up as `a@b.c` / `secret1`, then sign in with the same email and password: 401 "Invalid credentials" | search the array signup appends to (the comment on line 6 says so) | high, not executed | Flows.SignupThenSigninAsWritten | Flows.SignupThenSigninShared |
| app/api/auth/me/route.ts:5 | the who-am-I route searches its own `users` array, which nothing ever writes | sign up, then `GET /api/auth/me` with the returned cookie: 404 "User not found" | resolve the token's `userId` in the array signup appends to | high, not executed | Flows.SignupThenMeAsWritten | Flows.SignupThenMeShared |
| app/api/auth/signup/route.ts:69 | `maxAge: 7 * 24 * 60 * 60 * 1000` is passed to `cookies.set` (here and at app/api/auth/signin/route.ts:59), whose `maxAge` is the cookie's Max-Age in seconds, so the cookie asks to live 604800000 seconds and is still sent after its seven-day token stops verifying (browsers that cap Max-Age keep it up to their cap) | sign up, wait eight days: the browser still sends `token`, which no longer verifies | `maxAge: 7 * 24 * 60 * 60`, seven days as the comment says | high, not executed | Http.CookieOutlivesToken | Http.IntendedCookieMatchesToken |

## Left out

- The sign-out route (`POST /api/auth/signout`, called from the dashboard) is not modelled.
- Concurrency: requests are handled one at a time. The `await` between the signup's email check and its push, where two signups with one email could both pass, is not modelled.
- Exceptions thrown inside bcrypt or jsonwebtoken: both primitives are total here. The only 500 path modelled is a body for which `request.json()` throws (not JSON) or yields `null`, which cannot be destructured. Any other JSON value that is not an object destructures to absent fields and gets the 400 for missing fields.
- Request fields that are JSON values other than strings (numbers, arrays, objects): each field is either absent or a string.
- Strings holding a lone surrogate (a JSON `"\ud800"`): a JavaScript string can hold one, a Dafny `char` cannot, so `Utf16Length` covers only well-formed text.
- The handlers keep the session cookie's `maxAge` as written (604800000); `Http.IntendedSessionCookie` is used only to state the intended behaviour.
- Jwt.Verify: the token's header, algorithm choice and other claims (`nbf`, audience) are not modelled; verification is signature and `exp` only.
- Bcrypt.Hash: bcrypt reads only the first 72 bytes of a password; the model compares whole passwords.
- The middleware's `config.matcher`: requests it does not match skip the middleware, which for them is the same as passing through.
- The redirect is to the absolute URL built from `/login` and the request's URL; the model records the path only.
- Logging with `console.error`, and the React pages (login form, dashboard, home redirect).
- How `Date.now()` becomes an id and the current time in seconds: both are parameters, and ids are not assumed distinct.
