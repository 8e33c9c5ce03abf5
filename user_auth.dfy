/** The authentication routes defined inline in `BACKEND/index.js`: signup,
    login, profile and dashboard over the `users` collection. Request fields the
    client leaves out are `None`; `secret` is `SECRET_KEY`, which the server refuses
    to start without, and `now` is the clock in seconds. */
module UserAuth {
  import opened Wrappers
  import opened Seqs
  import opened Credentials

  /** A document of the `users` collection; `id` stands for Mongo's `_id`. */
  datatype User = User(id: nat, username: string, email: string, password: PasswordHash,
                       institution: Option<string>, studentClass: Option<string>)

  /** A user as `.select('-password')` returns it. */
  datatype PublicUser = PublicUser(id: nat, username: string, email: string,
                                   institution: Option<string>, studentClass: Option<string>)

  function WithoutPassword(u: User): PublicUser {
    PublicUser(u.id, u.username, u.email, u.institution, u.studentClass)
  }

  /** The JSON body of `POST /api/auth/signup`; no field is validated before use. */
  datatype SignupRequest = SignupRequest(username: Option<string>, email: Option<string>, password: Option<string>,
                                         institution: Option<string>, studentClass: Option<string>)

  datatype Body =
    | Message(text: string)
    | Session(token: Token, username: string, email: string)
    | Profile(user: PublicUser)

  /** An HTTP status and JSON body. */
  datatype Reply = Reply(status: nat, body: Body)

  /** The unique index on `email`. */
  predicate EmailsUnique(users: seq<User>) {
    forall i, j :: 0 <= i < j < |users| ==> users[i].email != users[j].email
  }

  /** Ids grow in insertion order and stay below the next id to hand out, so no two users share one. */
  predicate IdsFresh(users: seq<User>, nextId: nat) {
    (forall i, j :: 0 <= i < j < |users| ==> users[i].id < users[j].id)
    && forall i :: 0 <= i < |users| ==> users[i].id < nextId
  }

  /** `required: true` on `username` and `email` (a hashed password is never empty). */
  predicate HasRequiredFields(u: User) {
    u.username != "" && u.email != ""
  }

  /** `User.findOne({ email })` for a given email: the first user with that email. */
  function FindByEmail(users: seq<User>, email: string): Option<nat> {
    FirstIndex(users, (u: User) => u.email == email)
  }

  /** `User.findOne({ email })` on the request's field: when the field is missing the
      condition is dropped from the filter, so the first user matches. */
  function FindOne(users: seq<User>, email: Option<string>): (r: Option<nat>)
    ensures r.Some? ==> r.value < |users|
    ensures email.Some? ==> r == FindByEmail(users, email.value)
    ensures email.None? ==> (r.Some? <==> users != [])
    ensures email.None? && users != [] ==> r == Some(0)
  {
    match email
    case Some(e) => FindByEmail(users, e)
    case None => if users == [] then None else Some(0)
  }

  /** `User.findById(id)`. */
  function FindById(users: seq<User>, id: nat): Option<nat> {
    FirstIndex(users, (u: User) => u.id == id)
  }

  /** What Mongoose accepts on `save()`: a non-empty username and email, and an email
      no stored user has. */
  predicate Admissible(users: seq<User>, username: Option<string>, email: Option<string>) {
    && username.Some? && username.value != ""
    && email.Some? && email.value != ""
    && FindByEmail(users, email.value).None?
  }

  /** Appending a user whose email is not yet stored keeps emails unique. */
  lemma {:induction false} AppendFreshEmail(users: seq<User>, u: User)
    requires EmailsUnique(users)
    requires FindByEmail(users, u.email).None?
    ensures EmailsUnique(users + [u])
  {
    var s := users + [u];
    forall i, j | 0 <= i < j < |s| ensures s[i].email != s[j].email {
      if j == |users| {
        assert s[i] == users[i];
      } else {
        assert s[i] == users[i] && s[j] == users[j];
      }
    }
  }

  /** The `User` model: the stored documents and the next `_id` to hand out. */
  class UserCollection {
    var users: seq<User>
    var nextId: nat

    ghost predicate Valid()
      reads this
    {
      && EmailsUnique(users)
      && IdsFresh(users, nextId)
      && forall i :: 0 <= i < |users| ==> HasRequiredFields(users[i])
    }

    constructor ()
      ensures Valid() && users == [] && nextId == 0
    {
      users := [];
      nextId := 0;
    }

    /** `new User({...}).save()`: schema validation and the unique index either reject
        the document, leaving the collection as it was, or it is inserted under a fresh id. */
    method Save(username: Option<string>, email: Option<string>, password: PasswordHash,
                institution: Option<string>, studentClass: Option<string>) returns (saved: Option<User>)
      requires Valid()
      modifies this
      ensures Valid()
      ensures saved.Some? <==> Admissible(old(users), username, email)
      ensures saved.Some? ==> saved.value == User(old(nextId), username.value, email.value, password, institution, studentClass)
      ensures saved.Some? ==> users == old(users) + [saved.value] && nextId == old(nextId) + 1
      ensures saved.None? ==> users == old(users) && nextId == old(nextId)
    {
      if !Admissible(users, username, email) {
        return None;
      }
      var u := User(nextId, username.value, email.value, password, institution, studentClass);
      AppendFreshEmail(users, u);
      users := users + [u];
      nextId := nextId + 1;
      saved := Some(u);
    }
  }

  /** Everything signup needs to end in 201: no user found for the email, a password to
      hash, and a document the schema accepts. */
  predicate SignupSucceeds(users: seq<User>, req: SignupRequest) {
    && FindOne(users, req.email).None?
    && req.password.Some?
    && Admissible(users, req.username, req.email)
  }

  /** The document a successful signup stores: the request's fields with the password hashed. */
  function NewUser(id: nat, req: SignupRequest, salt: Salt): User
    requires req.username.Some? && req.email.Some? && req.password.Some?
  {
    User(id, req.username.value, req.email.value, Hash(req.password.value, salt), req.institution, req.studentClass)
  }

  /** `POST /api/auth/signup` (`salt` is what bcrypt draws). A taken email is a 409 and a
      missing password or a document the schema rejects a 500, all leaving the collection
      as it was; otherwise exactly one user, holding the hash of the password, is added. */
  method Signup(db: UserCollection, req: SignupRequest, salt: Salt) returns (reply: Reply)
    requires db.Valid()
    modifies db
    ensures db.Valid()
    ensures reply.status in {201, 409, 500}
    ensures reply.status == 409 <==> FindOne(old(db.users), req.email).Some?
    ensures reply.status == 409 ==> reply.body == Message("Email already exists")
    ensures reply.status == 201 <==> SignupSucceeds(old(db.users), req)
    ensures reply.status == 201 ==> db.users == old(db.users) + [NewUser(old(db.nextId), req, salt)]
    ensures reply.status != 201 ==> db.users == old(db.users) && db.nextId == old(db.nextId)
  {
    var existing := FindOne(db.users, req.email);
    if existing.Some? {
      return Reply(409, Message("Email already exists"));
    }
    if req.password.None? {
      // bcrypt.hash(undefined, 10) rejects, and the catch answers 500
      return Reply(500, Message("Error registering user"));
    }
    var hashed := Hash(req.password.value, salt);
    var saved := db.Save(req.username, req.email, hashed, req.institution, req.studentClass);
    if saved.None? {
      return Reply(500, Message("Error registering user"));
    }
    reply := Reply(201, Message("User registered successfully"));
  }

  /** The claims login signs: id, email and username. */
  function SessionClaims(u: User): Claims {
    Claims(Some(u.id), Some(u.email), Some(u.username))
  }

  /** `POST /api/auth/login`. */
  function Login(users: seq<User>, email: Option<string>, password: Option<string>, secret: string, now: int): (r: Reply)
    ensures r.status in {200, 401, 500}
    ensures r.status == 200 ==> r.body.Session?
  {
    match FindOne(users, email)
    case None => Reply(401, Message("Invalid email"))
    case Some(k) =>
      if password.None? then
        // bcrypt.compare(undefined, hash) rejects
        Reply(500, Message("Error logging in"))
      else if !Compare(password.value, users[k].password) then
        Reply(401, Message("Invalid password"))
      else
        Reply(200, Session(Sign(SessionClaims(users[k]), secret, now), users[k].username, users[k].email))
  }

  /** The user stored under an email is the one `findOne` returns. */
  lemma {:induction false} FindByStoredEmail(users: seq<User>, i: nat)
    requires EmailsUnique(users) && i < |users|
    ensures FindByEmail(users, users[i].email) == Some(i)
  {
  }

  /** The user stored under an id is the one `findById` returns. */
  lemma {:induction false} FindByStoredId(users: seq<User>, nextId: nat, i: nat)
    requires IdsFresh(users, nextId) && i < |users|
    ensures FindById(users, users[i].id) == Some(i)
  {
  }

  /** Login with an email no user has is answered 401 "Invalid email". */
  lemma LoginUnknownEmail(users: seq<User>, email: string, password: Option<string>, secret: string, now: int)
    requires forall i :: 0 <= i < |users| ==> users[i].email != email
    ensures Login(users, Some(email), password, secret, now) == Reply(401, Message("Invalid email"))
  {
  }

  /** For a stored user, login succeeds exactly with the password that user signed up
      with, and a wrong one is answered 401 "Invalid password". On success the reply
      echoes the user's name and email, and its token verifies under the server's
      secret for the next hour, yielding that user's id, email and username. */
  lemma LoginStoredUser(users: seq<User>, i: nat, password: string, secret: string, now: int, later: int)
    requires EmailsUnique(users) && i < |users|
    requires now <= later < now + TokenLifetime
    ensures var r := Login(users, Some(users[i].email), Some(password), secret, now);
      && (r.status == 200 <==> Compare(password, users[i].password))
      && (r.status != 200 ==> r == Reply(401, Message("Invalid password")))
      && (r.status == 200 ==>
            && r.body.username == users[i].username && r.body.email == users[i].email
            && Verify(r.body.token, secret, later) == Accepted(SessionClaims(users[i]))
            && r.body.token.expiresAt == now + TokenLifetime)
  {
    FindByStoredEmail(users, i);
  }

  /** `GET /api/auth/profile`. A token that fails verification throws inside the `try`
      and is answered 500, not 401. */
  function GetProfile(users: seq<User>, authorization: Option<Header>, secret: string, now: int): (r: Reply)
    ensures r.status in {200, 401, 404, 500}
    ensures r.status == 401 <==> SecondField(authorization).None? || !IsTruthy(SecondField(authorization).value)
    ensures r.status == 500 <==>
      && SecondField(authorization).Some? && IsTruthy(SecondField(authorization).value)
      && VerifyField(SecondField(authorization), secret, now).Rejected?
    ensures r.status == 404 <==>
      && SecondField(authorization).Some? && IsTruthy(SecondField(authorization).value)
      && VerifyField(SecondField(authorization), secret, now).Accepted?
      && (|| VerifyField(SecondField(authorization), secret, now).claims.id.None?
          || FindById(users, VerifyField(SecondField(authorization), secret, now).claims.id.value).None?)
    ensures r.status == 404 ==> r.body == Message("User not found")
    ensures r.status == 200 ==>
      && r.body.Profile?
      && VerifyField(SecondField(authorization), secret, now).Accepted?
      && exists i :: 0 <= i < |users|
           && Some(users[i].id) == VerifyField(SecondField(authorization), secret, now).claims.id
           && r.body.user == WithoutPassword(users[i])
  {
    var token := SecondField(authorization);
    if token.None? || !IsTruthy(token.value) then Reply(401, Message("Unauthorized"))
    else match VerifyField(token, secret, now)
      case Rejected(_) => Reply(500, Message("Error fetching profile"))
      case Accepted(claims) =>
        // findById(undefined) finds nothing
        var k := if claims.id.Some? then FindById(users, claims.id.value) else None;
        if k.None? then Reply(404, Message("User not found"))
        else Reply(200, Profile(WithoutPassword(users[k.value])))
  }

  /** How a template literal prints an optional string. */
  function Display(v: Option<string>): string {
    match v
    case Some(s) => s
    case None => "undefined"
  }

  /** `GET /api/dashboard`: needs only a token that verifies; it reads no user. */
  function Dashboard(authorization: Option<Header>, secret: string, now: int): (r: Reply)
    ensures r.status in {200, 401}
    ensures authorization.None? ==> r == Reply(401, Message("Unauthorized"))
    ensures r.status == 200 <==> VerifyField(SecondField(authorization), secret, now).Accepted?
  {
    if authorization.None? || IsEmptyHeader(authorization.value) then Reply(401, Message("Unauthorized"))
    else match VerifyField(SecondField(authorization), secret, now)
      case Rejected(_) => Reply(401, Message("Invalid token"))
      case Accepted(claims) => Reply(200, Message("Welcome to the dashboard, " + Display(claims.username) + "!"))
  }

  /** A session obtained by logging in opens the profile and the dashboard for the next
      hour: the profile is the user's record without the password, and the dashboard
      greets the user by name. */
  lemma LoginThenProfileAndDashboard(users: seq<User>, nextId: nat, i: nat, password: string,
                                      secret: string, now: int, later: int)
    requires EmailsUnique(users) && IdsFresh(users, nextId) && i < |users|
    requires Compare(password, users[i].password)
    requires now <= later < now + TokenLifetime
    ensures var r := Login(users, Some(users[i].email), Some(password), secret, now);
      && r.status == 200
      && GetProfile(users, Some(BearerHeader(r.body.token)), secret, later)
         == Reply(200, Profile(WithoutPassword(users[i])))
      && Dashboard(Some(BearerHeader(r.body.token)), secret, later)
         == Reply(200, Message("Welcome to the dashboard, " + users[i].username + "!"))
  {
    FindByStoredEmail(users, i);
    FindByStoredId(users, nextId, i);
  }

  /** The same expired or foreign token is a 500 at the profile route and a 401 at the dashboard. */
  lemma RejectedTokenStatuses(users: seq<User>, t: Token, secret: string, now: int)
    requires Verify(t, secret, now).Rejected?
    ensures GetProfile(users, Some(BearerHeader(t)), secret, now) == Reply(500, Message("Error fetching profile"))
    ensures Dashboard(Some(BearerHeader(t)), secret, now) == Reply(401, Message("Invalid token"))
  {
  }

  /** The walk-through of the signup, login and profile routes: sign up, sign up again,
      log in with the right and a wrong password, read the profile with and without the token. */
  method SignupLoginScenario(salt: Salt, secret: string, now: int) returns (statuses: seq<nat>, profile: Body)
    ensures statuses == [201, 409, 200, 401, 200, 401]
    ensures profile == Profile(PublicUser(0, "a", "a@x.com", None, None))
  {
    var db := new UserCollection();
    var req := SignupRequest(Some("a"), Some("a@x.com"), Some("secret1"), None, None);
    var first := Signup(db, req, salt);
    var second := Signup(db, req, salt);
    assert db.users == [NewUser(0, req, salt)];
    var good := Login(db.users, Some("a@x.com"), Some("secret1"), secret, now);
    var bad := Login(db.users, Some("a@x.com"), Some("wrong"), secret, now);
    var withToken := GetProfile(db.users, Some(BearerHeader(good.body.token)), secret, now);
    var withoutToken := GetProfile(db.users, None, secret, now);
    statuses := [first.status, second.status, good.status, bad.status, withToken.status, withoutToken.status];
    profile := withToken.body;
  }
}
