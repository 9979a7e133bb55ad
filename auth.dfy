/**
 * app/auth.ts: the credentials sign-in over the built-in demonstration users,
 * and the `jwt` and `session` callbacks that carry the user id from the
 * signed-in user into the token and from the token into the session. The
 * callbacks assign into their argument objects, which are classes here.
 */
module Auth {
  import opened Wrappers

  /** An entry of `users`. */
  datatype StoredUser = StoredUser(id: string, name: string, email: string, password: string)

  /** The user `authorize` hands back: the stored user without its password. */
  datatype PublicUser = PublicUser(id: string, name: string, email: string)

  /** The submitted form; a field is `None` when it is absent. */
  datatype Credentials = Credentials(email: Option<string>, password: Option<string>)

  const Users: seq<StoredUser> := [
    StoredUser("1", "Admin User", "admin@svenn.com", "password123"),
    StoredUser("2", "Test User", "test@example.com", "test123")
  ]

  /** `session.maxAge`: thirty days, in seconds. */
  const MaxAge: nat := 30 * 24 * 60 * 60

  /** A JavaScript falsy text: absent or empty. */
  predicate Blank(x: Option<string>) {
    x.None? || x.value == ""
  }

  /** `users.find(user => user.email === email)` */
  function FindByEmail(users: seq<StoredUser>, email: string): Option<StoredUser>
    decreases |users|
  {
    if users == [] then None
    else if users[0].email == email then Some(users[0])
    else FindByEmail(users[1..], email)
  }

  function WithoutPassword(u: StoredUser): PublicUser {
    PublicUser(u.id, u.name, u.email)
  }

  /** `authorize` over a user list. */
  function AuthorizeIn(users: seq<StoredUser>, credentials: Option<Credentials>): Option<PublicUser> {
    if credentials.None? || Blank(credentials.value.email) || Blank(credentials.value.password) then None
    else
      var user := FindByEmail(users, credentials.value.email.value);
      if user.Some? && user.value.password == credentials.value.password.value then Some(WithoutPassword(user.value))
      else None
  }

  /** `authorize` as configured. */
  function Authorize(credentials: Option<Credentials>): Option<PublicUser> {
    AuthorizeIn(Users, credentials)
  }

  /** The first user with the email is at index `i`. */
  predicate FirstWithEmail(users: seq<StoredUser>, email: string, i: int) {
    0 <= i < |users| && users[i].email == email && forall j :: 0 <= j < i ==> users[j].email != email
  }

  lemma {:induction false} FindByEmailMeaning(users: seq<StoredUser>, email: string)
    ensures FindByEmail(users, email).None? <==> forall j :: 0 <= j < |users| ==> users[j].email != email
    ensures FindByEmail(users, email).Some? ==>
      exists i :: FirstWithEmail(users, email, i) && FindByEmail(users, email) == Some(users[i])
    decreases |users|
  {
    if users != [] && users[0].email != email {
      FindByEmailMeaning(users[1..], email);
      if FindByEmail(users[1..], email).Some? {
        var i :| FirstWithEmail(users[1..], email, i) && FindByEmail(users[1..], email) == Some(users[1..][i]);
        assert FirstWithEmail(users, email, i + 1);
      } else {
        forall j | 0 <= j < |users|
          ensures users[j].email != email
        {
          if j > 0 {
            assert users[j] == users[1..][j - 1];
          }
        }
      }
    } else if users != [] {
      assert FirstWithEmail(users, email, 0);
    }
  }

  /**
   * Sign-in succeeds exactly when both fields are filled in, some user has the
   * email, and the first such user's password equals the submitted one; the
   * result is that user's id, name and email.
   */
  lemma AuthorizeMeaning(users: seq<StoredUser>, credentials: Option<Credentials>)
    ensures credentials.None? || Blank(credentials.value.email) || Blank(credentials.value.password) ==>
      AuthorizeIn(users, credentials).None?
    ensures AuthorizeIn(users, credentials).Some? <==>
      credentials.Some? && !Blank(credentials.value.email) && !Blank(credentials.value.password)
      && exists i :: FirstWithEmail(users, credentials.value.email.value, i)
                    && users[i].password == credentials.value.password.value
    ensures AuthorizeIn(users, credentials).Some? ==>
      exists i :: FirstWithEmail(users, credentials.value.email.value, i)
                 && AuthorizeIn(users, credentials) == Some(PublicUser(users[i].id, users[i].name, users[i].email))
  {
    if credentials.Some? && !Blank(credentials.value.email) && !Blank(credentials.value.password) {
      var email := credentials.value.email.value;
      FindByEmailMeaning(users, email);
      if FindByEmail(users, email).Some? {
        var i :| FirstWithEmail(users, email, i) && FindByEmail(users, email) == Some(users[i]);
        FirstUnique(users, email, i);
      }
    }
  }

  /** There is only one first user with an email. */
  lemma FirstUnique(users: seq<StoredUser>, email: string, i: int)
    requires FirstWithEmail(users, email, i)
    ensures forall k :: FirstWithEmail(users, email, k) ==> k == i
  {
  }

  /** The two demonstration accounts sign in with their own passwords, and a wrong password fails. */
  lemma DemoUsers(email: string, password: string, wrong: string)
    requires email == "admin@svenn.com" && password == "password123" && wrong != password
    ensures Authorize(Some(Credentials(Some(email), Some(password)))) ==
      Some(PublicUser("1", "Admin User", "admin@svenn.com"))
    ensures Authorize(Some(Credentials(Some(email), Some(wrong)))).None?
  {
    assert FindByEmail(Users, email) == Some(Users[0]);
  }

  /** Thirty days of 24 hours of 60 minutes of 60 seconds. */
  lemma MaxAgeIsThirtyDays()
    ensures MaxAge == 2592000 && MaxAge / (24 * 60 * 60) == 30
  {
  }

  /** The JWT: `id` is absent until a sign-in sets it; `claims` are its other contents. */
  class Token {
    var id: Option<string>
    var claims: map<string, string>

    constructor (claims: map<string, string>)
      ensures id.None? && this.claims == claims
    {
      id := None;
      this.claims := claims;
    }

    /** The `jwt` callback: a signing-in user's id goes into the token; otherwise it is kept. */
    method Jwt(user: Option<PublicUser>)
      modifies this
      ensures user.Some? ==> id == Some(user.value.id)
      ensures user.None? ==> id == old(id)
      ensures claims == old(claims)
    {
      if user.Some? {
        id := Some(user.value.id);
      }
    }
  }

  /** `session.user`: its id and the other profile fields. */
  datatype SessionUser = SessionUser(id: Option<string>, name: Option<string>, email: Option<string>)

  class Session {
    var user: Option<SessionUser>

    constructor (user: Option<SessionUser>)
      ensures this.user == user
    {
      this.user := user;
    }

    /** The `session` callback: the token's id goes into the session's user, when there is one. */
    method SessionCallback(token: Token)
      modifies this
      ensures old(user).Some? ==> user == Some(old(user).value.(id := token.id))
      ensures old(user).None? ==> user.None?
    {
      if user.Some? {
        user := Some(user.value.(id := token.id));
      }
    }
  }

  /**
   * A sign-in from start to session: the user `authorize` accepts has
   * their id copied into a fresh token and from it into the session's user,
   * whose other fields stay as they were.
   */
  method SignIn(credentials: Option<Credentials>, profile: SessionUser)
    returns (accepted: Option<PublicUser>, sessionUser: Option<SessionUser>)
    ensures accepted == Authorize(credentials)
    ensures accepted.Some? ==> sessionUser == Some(profile.(id := Some(accepted.value.id)))
    ensures accepted.None? ==> sessionUser.None?
  {
    accepted := Authorize(credentials);
    if accepted.None? {
      return accepted, None;
    }
    var token := new Token(map[]);
    token.Jwt(accepted);
    var session := new Session(Some(profile));
    session.SessionCallback(token);
    sessionUser := session.user;
  }
}
