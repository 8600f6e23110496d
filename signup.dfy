/** `POST /api/auth/signup`: validates the body, refuses a taken email,
    appends the new user to the module's in-memory array and answers with
    the public profile and a session cookie. */
module Signup {
  import opened Js
  import opened Users
  import opened Http
  import Bcrypt
  import Jwt

  /** The fields destructured from the JSON body. */
  datatype Body = Body(name: Option<string>, email: Option<string>, password: Option<string>)

  const MinPasswordLength: nat := 6

  const AllFieldsRequired: string := "All fields are required"
  const PasswordTooShort: string := "Password must be at least 6 characters long"
  const UserExists: string := "User already exists with this email"
  const Created: string := "User created successfully"

  /** The handler's response together with the array after the request. */
  datatype Outcome = Outcome(response: Response, users: seq<User>)

  predicate Complete(b: Body)
  {
    Truthy(b.name) && Truthy(b.email) && Truthy(b.password)
  }

  /** Whether a request gets past every check and creates a user. */
  predicate Accepted(users: seq<User>, body: Option<Body>)
  {
    body.Some? && Complete(body.value) &&
    Utf16Length(body.value.password.value) >= MinPasswordLength &&
    FindByEmail(users, body.value.email.value).None?
  }

  /** The record a request creates: the id it is given, the name and email
      as sent and the password's hash. */
  function NewUser(b: Body, id: string, salt: string): User
    requires Complete(b)
  {
    User(id, b.name.value, b.email.value, Bcrypt.Hash(b.password.value, salt))
  }

  /** One request against the array `users`. `body` is `None` when
      `request.json()` throws or yields `null`; any other JSON value that
      is not an object destructures to `Body(None, None, None)`. `id` is `Date.now().toString()`, `salt` the
      salt bcrypt draws and `now` the clock `jwt.sign` reads. */
  function Handle(users: seq<User>, body: Option<Body>, id: string, salt: string, now: int, env: Env): (o: Outcome)
    // the checks, in the order the handler makes them
    ensures body.None? ==> o == Outcome(InternalError, users)
    ensures body.Some? && !Complete(body.value) ==>
              o == Outcome(Fail(400, AllFieldsRequired), users)
    ensures body.Some? && Complete(body.value) && Utf16Length(body.value.password.value) < MinPasswordLength ==>
              o == Outcome(Fail(400, PasswordTooShort), users)
    ensures body.Some? && Complete(body.value) && Utf16Length(body.value.password.value) >= MinPasswordLength &&
            (exists i :: 0 <= i < |users| && users[i].email == body.value.email.value) ==>
              o == Outcome(Fail(400, UserExists), users)
    // a user is created exactly when every check passes, and only then
    ensures o.response.status == 201 <==> Accepted(users, body)
    ensures o.response.status != 201 ==> o.users == users && o.response.user.None? && o.response.cookie.None?
    ensures o.response.status == 201 ==>
              |o.users| == |users| + 1 && o.users[..|users|] == users &&
              var u := o.users[|users|];
              u.id == id && u.name == body.value.name.value && u.email == body.value.email.value &&
              u.password == Bcrypt.Hash(body.value.password.value, salt) &&
              o.response.message == Some(Created) &&
              o.response.user == Some(PublicUser(u.id, u.name, u.email)) &&
              o.response.cookie == Some(SessionCookie(Jwt.Sign(u.id, u.email, Jwt.Key(env.jwtSecret), now), env))
    // the array never holds two records with one email
    ensures UniqueEmails(users) ==> UniqueEmails(o.users)
  {
    if body.None? then Outcome(InternalError, users)
    else
      var b := body.value;
      if !Complete(b) then Outcome(Fail(400, AllFieldsRequired), users)
      else if Utf16Length(b.password.value) < MinPasswordLength then Outcome(Fail(400, PasswordTooShort), users)
      else if FindByEmail(users, b.email.value).Some? then Outcome(Fail(400, UserExists), users)
      else
        var u := NewUser(b, id, salt);
        var token := Jwt.Sign(u.id, u.email, Jwt.Key(env.jwtSecret), now);
        Outcome(Response(201, Some(Created), Some(Profile(u)), Some(SessionCookie(token, env))), users + [u])
  }

  /** The route module: its `users` array and its `POST` handler. */
  class Route {
    var users: seq<User>

    ghost predicate Valid()
      reads this
    {
      UniqueEmails(users)
    }

    /** The array starts out empty when the module is loaded. */
    constructor ()
      ensures Valid() && users == []
    {
      users := [];
    }

    method Post(body: Option<Body>, id: string, salt: string, now: int, env: Env) returns (response: Response)
      requires Valid()
      modifies this
      ensures Valid()
      ensures Outcome(response, users) == Handle(old(users), body, id, salt, now, env)
    {
      if body.None? {
        return InternalError;
      }
      var b := body.value;
      if !Truthy(b.name) || !Truthy(b.email) || !Truthy(b.password) {
        return Fail(400, AllFieldsRequired);
      }
      if Utf16Length(b.password.value) < MinPasswordLength {
        return Fail(400, PasswordTooShort);
      }
      var existing := FindByEmail(users, b.email.value);
      if existing.Some? {
        return Fail(400, UserExists);
      }
      var hashed := Bcrypt.Hash(b.password.value, salt);
      var newUser := User(id, b.name.value, b.email.value, hashed);
      users := users + [newUser];
      var token := Jwt.Sign(newUser.id, newUser.email, Jwt.Key(env.jwtSecret), now);
      response := Response(201, Some(Created), Some(Profile(newUser)), Some(SessionCookie(token, env)));
    }
  }

  /** One request as it arrives, with the values the handler draws from
      the clock and the random source. */
  datatype Request = Request(body: Option<Body>, id: string, salt: string, now: int)

  /** The array after handling `reqs` one after another. */
  function Replay(users: seq<User>, reqs: seq<Request>, env: Env): (r: seq<User>)
    ensures users <= r
    ensures UniqueEmails(users) ==> UniqueEmails(r)
    decreases |reqs|
  {
    if reqs == [] then users
    else
      var q := reqs[0];
      Replay(Handle(users, q.body, q.id, q.salt, q.now, env).users, reqs[1..], env)
  }

  /** Once a signup for an email has succeeded, a second complete signup
      with that email is refused and leaves the array as it was. */
  lemma SecondSignupRefused(users: seq<User>, first: Body, id: string, salt: string, now: int,
                            second: Body, id2: string, salt2: string, now2: int, env: Env)
    requires Handle(users, Some(first), id, salt, now, env).response.status == 201
    requires Complete(second) && Utf16Length(second.password.value) >= MinPasswordLength
    requires second.email == first.email
    ensures var after := Handle(users, Some(first), id, salt, now, env).users;
            Handle(after, Some(second), id2, salt2, now2, env) == Outcome(Fail(400, UserExists), after)
  {
  }

  /** The length check counts UTF-16 code units: a password of five
      characters, one of them outside the Basic Multilingual Plane, is long
      enough. */
  lemma AstralPasswordAccepted(users: seq<User>, name: string, email: string, id: string, salt: string,
                               now: int, env: Env)
    requires name != "" && email != ""
    requires forall i :: 0 <= i < |users| ==> users[i].email != email
    ensures var password := "abcd\U{1F600}";
            |password| == 5 &&
            Handle(users, Some(Body(Some(name), Some(email), Some(password))), id, salt, now, env).response.status == 201
  {
  }

  /** After a signup succeeds, looking its email up in the new array finds
      the record it appended. */
  lemma NewUserFound(users: seq<User>, body: Body, id: string, salt: string, now: int, env: Env)
    requires Handle(users, Some(body), id, salt, now, env).response.status == 201
    ensures var o := Handle(users, Some(body), id, salt, now, env);
            FindByEmail(o.users, body.email.value) == Some(o.users[|users|])
  {
  }

  /** A refused signup leaves nothing behind: the same email can sign up
      afterwards as if the first attempt had not happened. */
  lemma RefusedLeavesNoTrace(users: seq<User>, first: Option<Body>, id: string, salt: string, now: int,
                             second: Option<Body>, id2: string, salt2: string, now2: int, env: Env)
    requires Handle(users, first, id, salt, now, env).response.status != 201
    ensures var after := Handle(users, first, id, salt, now, env).users;
            Handle(after, second, id2, salt2, now2, env) == Handle(users, second, id2, salt2, now2, env)
  {
  }
}
