/** The stricter router of `BACKEND/routes/auth.js`: validated signup, login and
    profile over the `Student` collection. `jwtSecret` is `process.env.JWT_SECRET`,
    which nothing checks at start-up, so it may be missing. */
module StudentAuth {
  import opened Wrappers
  import opened Seqs
  import opened Text
  import opened Credentials
  import opened StudentSchema

  datatype SignupRequest = SignupRequest(name: Option<string>, email: Option<string>, password: Option<string>,
                                         institution: Option<string>, studentClass: Option<string>)

  datatype LoginRequest = LoginRequest(email: Option<string>, password: Option<string>)

  datatype Body =
    | ValidationErrors(fields: seq<string>)
    | Message(text: string)
    | Issued(token: Token)
    | Session(token: Token, username: string, email: string)
    | Record(student: Option<PublicStudent>)

  /** An HTTP status and JSON body. */
  datatype Reply = Reply(status: nat, body: Body)

  /** express-validator's `notEmpty()`: a missing field is checked as `''`. */
  predicate NotEmpty(field: Option<string>) {
    field.Some? && field.value != ""
  }

  /** express-validator's `isEmail()`, simplified: a non-empty local part, one `@`, a
      domain with a dot that is neither its first nor its last character, no whitespace. */
  predicate IsEmail(s: string) {
    match FirstIndex(s, (c: char) => c == '@')
    case None => false
    case Some(at) =>
      var domain := s[at + 1..];
      && at > 0
      && '@' !in domain
      && |domain| >= 3 && domain[0] != '.' && domain[|domain| - 1] != '.' && '.' in domain
      && forall i :: 0 <= i < |s| ==> !IsWhitespace(s[i])
  }

  predicate IsEmailField(field: Option<string>) {
    field.Some? && IsEmail(field.value)
  }

  /** `isLength({ min: 6 })`. */
  predicate LongEnough(field: Option<string>) {
    field.Some? && |field.value| >= 6
  }

  /** The signup request passes all five validators. */
  predicate SignupValid(req: SignupRequest) {
    && NotEmpty(req.name) && IsEmailField(req.email) && LongEnough(req.password)
    && NotEmpty(req.institution) && NotEmpty(req.studentClass)
  }

  /** `validationResult(req).array()`, as the names of the fields that failed, in the
      order the validators are declared. */
  function SignupErrors(req: SignupRequest): (errors: seq<string>)
    ensures errors == [] <==> SignupValid(req)
    ensures !NotEmpty(req.name) ==> "name" in errors
    ensures !IsEmailField(req.email) ==> "email" in errors
    ensures !LongEnough(req.password) ==> "password" in errors
    ensures !NotEmpty(req.institution) ==> "institution" in errors
    ensures !NotEmpty(req.studentClass) ==> "class" in errors
    ensures forall f :: f in errors ==> f in {"name", "email", "password", "institution", "class"}
  {
    (if NotEmpty(req.name) then [] else ["name"])
    + (if IsEmailField(req.email) then [] else ["email"])
    + (if LongEnough(req.password) then [] else ["password"])
    + (if NotEmpty(req.institution) then [] else ["institution"])
    + (if NotEmpty(req.studentClass) then [] else ["class"])
  }

  /** `Student.findOne({ email })`. */
  function FindByEmail(students: seq<Student>, email: string): Option<nat> {
    FirstIndex(students, (s: Student) => s.email == email)
  }

  /** `Student.findById(id)`. */
  function FindById(students: seq<Student>, id: nat): Option<nat> {
    FirstIndex(students, (s: Student) => s.id == id)
  }

  /** Ids grow in insertion order and stay below the next id to hand out. */
  predicate IdsFresh(students: seq<Student>, nextId: nat) {
    (forall i, j :: 0 <= i < j < |students| ==> students[i].id < students[j].id)
    && forall i :: 0 <= i < |students| ==> students[i].id < nextId
  }

  /** The `Student` model: the stored documents and the next `_id` to hand out. */
  class StudentCollection {
    var students: seq<Student>
    var nextId: nat

    ghost predicate Valid()
      reads this
    {
      EmailsUnique(students) && IdsFresh(students, nextId)
    }

    constructor ()
      ensures Valid() && students == [] && nextId == 0
    {
      students := [];
      nextId := 0;
    }

    /** `student.save()` at time `now`: schema validation and the unique index either
        reject the draft, leaving the collection as it was, or it is inserted. */
    method Save(d: Draft, now: int) returns (saved: Option<Student>)
      requires Valid()
      modifies this
      ensures Valid()
      ensures saved.Some? <==> Validate(d, old(nextId), now).Some? && FindByEmail(old(students), d.email.value).None?
      ensures saved.Some? ==> saved == Validate(d, old(nextId), now)
      ensures saved.Some? ==> students == old(students) + [saved.value] && nextId == old(nextId) + 1
      ensures saved.None? ==> students == old(students) && nextId == old(nextId)
    {
      var candidate := Validate(d, nextId, now);
      if candidate.None? || FindByEmail(students, d.email.value).Some? {
        return None;
      }
      var s := candidate.value;
      var all := students + [s];
      forall i, j | 0 <= i < j < |all| ensures all[i].email != all[j].email {
        if j < |students| {
          assert all[i] == students[i] && all[j] == students[j];
        } else {
          assert all[i] == students[i];
        }
      }
      students := all;
      nextId := nextId + 1;
      saved := Some(s);
    }
  }

  /** The student a successful signup stores at time `now`. */
  function NewStudent(id: nat, req: SignupRequest, salt: Salt, now: int): Student
    requires SignupValid(req)
  {
    Student(id, req.name.value, req.email.value, Hash(req.password.value, salt), req.institution.value,
            req.studentClass.value, now)
  }

  /** `POST /signup`. Every client fault is a 400 and leaves the collection as it was;
      a valid request with a fresh email stores one student holding the hashed password
      and answers a token whose only claim is the new id. Without a signing secret
      `jwt.sign` throws after the save: the student stays stored and the reply is 500. */
  method Signup(db: StudentCollection, req: SignupRequest, salt: Salt, jwtSecret: Option<string>, now: int)
    returns (reply: Reply)
    requires db.Valid()
    modifies db
    ensures db.Valid()
    ensures reply.status in {200, 400, 500}
    ensures !SignupValid(req) ==> reply == Reply(400, ValidationErrors(SignupErrors(req)))
    ensures SignupValid(req) && FindByEmail(old(db.students), req.email.value).Some?
            ==> reply == Reply(400, Message("Email already exists"))
    ensures reply.status == 400 <==> !SignupValid(req) || FindByEmail(old(db.students), req.email.value).Some?
    ensures reply.status == 400 ==> db.students == old(db.students) && db.nextId == old(db.nextId)
    ensures reply.status != 400 ==> db.students == old(db.students) + [NewStudent(old(db.nextId), req, salt, now)]
    ensures reply.status == 200 <==> reply.status != 400 && jwtSecret.Some?
    ensures reply.status == 200 ==>
              reply.body == Issued(Sign(Claims(Some(old(db.nextId)), None, None), jwtSecret.value, now))
  {
    var errors := SignupErrors(req);
    if errors != [] {
      return Reply(400, ValidationErrors(errors));
    }
    var existing := FindByEmail(db.students, req.email.value);
    if existing.Some? {
      return Reply(400, Message("Email already exists"));
    }
    var hashed := Hash(req.password.value, salt);
    var id := db.nextId;
    var saved := db.Save(Draft(req.name, req.email, Some(hashed), req.institution, req.studentClass, None), now);
    assert saved.Some?;
    match jwtSecret {
      case None =>
        // jwt.sign throws "secretOrPrivateKey must have a value"
        reply := Reply(500, Message("Server error"));
      case Some(secret) =>
        reply := Reply(200, Issued(Sign(Claims(Some(id), None, None), secret, now)));
    }
  }

  /** `POST /login` as written: the stray identifier `zzz` at the top of the `try`
      throws a ReferenceError before anything else runs, and the catch answers 500. */
  function LoginAsWritten(students: seq<Student>, req: LoginRequest, jwtSecret: Option<string>, now: int): Reply {
    Reply(500, Message("Server error during login"))
  }

  /** `POST /login` as its checks are written below the stray identifier: every client
      fault is a 400; success answers a token whose only claim is the id, with the
      student's name as username. */
  function Login(students: seq<Student>, req: LoginRequest, jwtSecret: Option<string>, now: int): (r: Reply)
    ensures r.status in {200, 400, 500}
    ensures r.status == 200 ==> r.body.Session?
    ensures !IsEmailField(req.email) || !NotEmpty(req.password) ==> r == Reply(400, Message("Invalid email or missing password"))
    ensures IsEmailField(req.email) && NotEmpty(req.password) && FindByEmail(students, req.email.value).None?
      ==> r == Reply(400, Message("Email not found"))
  {
    if !IsEmailField(req.email) || !NotEmpty(req.password) then
      Reply(400, Message("Invalid email or missing password"))
    else match FindByEmail(students, req.email.value)
      case None => Reply(400, Message("Email not found"))
      case Some(k) =>
        if !Compare(req.password.value, students[k].password) then Reply(400, Message("Invalid password"))
        else match jwtSecret
          case None => Reply(500, Message("Server error during login"))
          case Some(secret) =>
            Reply(200, Session(Sign(Claims(Some(students[k].id), None, None), secret, now),
                               students[k].name, students[k].email))
  }

  /** The student stored under an email is the one `findOne` returns. */
  lemma FindByStoredEmail(students: seq<Student>, i: nat)
    requires EmailsUnique(students) && i < |students|
    ensures FindByEmail(students, students[i].email) == Some(i)
  {
  }

  /** For a stored student, the login checks accept exactly the signup password and
      answer a token naming only the student's id, valid for an hour, with the student's
      name and email; a wrong password is a 400. */
  lemma LoginStoredStudent(students: seq<Student>, i: nat, password: string, secret: string, now: int)
    requires EmailsUnique(students) && i < |students|
    requires IsEmail(students[i].email) && password != ""
    ensures var r := Login(students, LoginRequest(Some(students[i].email), Some(password)), Some(secret), now);
      && (r.status == 200 <==> Compare(password, students[i].password))
      && (r.status != 200 ==> r == Reply(400, Message("Invalid password")))
      && (r.status == 200 ==>
            && r.body.token == Sign(Claims(Some(students[i].id), None, None), secret, now)
            && r.body.username == students[i].name && r.body.email == students[i].email)
  {
    FindByStoredEmail(students, i);
  }

  /** A stored student with the right password, whom the login checks admit, is
      answered 500 by the route as written. */
  lemma LoginAsWrittenAlwaysFails(students: seq<Student>, i: nat, password: string, secret: string, now: int)
    requires EmailsUnique(students) && i < |students|
    requires IsEmail(students[i].email) && password != "" && Compare(password, students[i].password)
    ensures Login(students, LoginRequest(Some(students[i].email), Some(password)), Some(secret), now).status == 200
    ensures LoginAsWritten(students, LoginRequest(Some(students[i].email), Some(password)), Some(secret), now).status == 500
  {
    LoginStoredStudent(students, i, password, secret, now);
  }

  /** `GET /profile` for the caller `authMiddleware` identified: the student without the
      password, or `null` when there is none, both with status 200. */
  function Profile(students: seq<Student>, callerId: nat): (r: Reply)
    ensures r.status == 200 && r.body.Record?
    ensures r.body.student.Some? <==> exists i :: 0 <= i < |students| && students[i].id == callerId
    ensures r.body.student.Some? ==>
      exists i :: 0 <= i < |students| && students[i].id == callerId && r.body.student.value == WithoutPassword(students[i])
  {
    match FindById(students, callerId)
    case None => Reply(200, Record(None))
    case Some(k) => Reply(200, Record(Some(WithoutPassword(students[k]))))
  }

  /** The address the walk-through signs up with passes the email check. */
  lemma AddressIsEmail()
    ensures IsEmail("a@x.com")
  {
    var s := "a@x.com";
    assert s[0] != '@' && s[1] == '@';
    assert FirstIndex(s, (c: char) => c == '@') == Some(1);
    var domain := s[2..];
    assert domain == "x.com";
    assert domain[1] == '.';
    assert forall i :: 0 <= i < |domain| ==> domain[i] != '@';
    assert forall i :: 0 <= i < |s| ==> !IsWhitespace(s[i]);
  }

  /** The router's own walk-through: a valid signup, the same email again, and an
      invalid one, then a login that, as written, fails. */
  method SignupScenario(salt: Salt, secret: string, now: int) returns (statuses: seq<nat>)
    ensures statuses == [200, 400, 400, 500]
  {
    var db := new StudentCollection();
    var req := SignupRequest(Some("Asha"), Some("a@x.com"), Some("secret1"), Some("IIT"), Some("12"));
    AddressIsEmail();
    assert SignupValid(req);
    var first := Signup(db, req, salt, Some(secret), now);
    assert db.students == [NewStudent(0, req, salt, now)];
    assert FindByEmail(db.students, "a@x.com") == Some(0);
    var second := Signup(db, req, salt, Some(secret), now);
    var invalid := Signup(db, req.(password := Some("short")), salt, Some(secret), now);
    assert !LongEnough(Some("short"));
    var login := LoginAsWritten(db.students, LoginRequest(Some("a@x.com"), Some("secret1")), Some(secret), now);
    statuses := [first.status, second.status, invalid.status, login.status];
  }
}
