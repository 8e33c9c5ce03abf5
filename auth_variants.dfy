/** Where the two backends (`BACKEND/index.js` and `BACKEND/routes/auth.js`)
    disagree on the same requests. */
module AuthVariants {
  import opened Wrappers
  import opened Credentials
  import UserAuth
  import StudentAuth
  import StudentSchema

  /** A second signup with a taken email: the inline routes answer 409, the router 400. */
  method DuplicateSignupStatuses(salt: Salt, secret: string, now: int) returns (inline: nat, router: nat)
    ensures inline == 409 && router == 400
  {
    var users := new UserAuth.UserCollection();
    var userReq := UserAuth.SignupRequest(Some("Asha"), Some("a@x.com"), Some("secret1"), Some("IIT"), Some("12"));
    var _ := UserAuth.Signup(users, userReq, salt);
    var again := UserAuth.Signup(users, userReq, salt);
    inline := again.status;

    var students := new StudentAuth.StudentCollection();
    var studentReq := StudentAuth.SignupRequest(Some("Asha"), Some("a@x.com"), Some("secret1"), Some("IIT"), Some("12"));
    StudentAuth.AddressIsEmail();
    assert StudentAuth.SignupValid(studentReq);
    var _ := StudentAuth.Signup(students, studentReq, salt, Some(secret), now);
    assert StudentAuth.FindByEmail(students.students, "a@x.com") == Some(0);
    var twice := StudentAuth.Signup(students, studentReq, salt, Some(secret), now);
    router := twice.status;
  }

  /** A successful login signs id, email and username in the inline routes, but only the
      id in the router's login checks. */
  lemma SessionClaimsDiffer(users: seq<UserAuth.User>, i: nat, students: seq<StudentSchema.Student>, j: nat,
                            password: string, secret: string, now: int)
    requires UserAuth.EmailsUnique(users) && i < |users| && Compare(password, users[i].password)
    requires StudentSchema.EmailsUnique(students) && j < |students| && Compare(password, students[j].password)
    requires StudentAuth.IsEmail(students[j].email) && password != ""
    ensures var inline := UserAuth.Login(users, Some(users[i].email), Some(password), secret, now);
            var router := StudentAuth.Login(students, StudentAuth.LoginRequest(Some(students[j].email), Some(password)), Some(secret), now);
      && inline.status == 200 && router.status == 200
      && inline.body.token.claims == Claims(Some(users[i].id), Some(users[i].email), Some(users[i].username))
      && router.body.token.claims == Claims(Some(students[j].id), None, None)
  {
    UserAuth.LoginStoredUser(users, i, password, secret, now, now);
    StudentAuth.LoginStoredStudent(students, j, password, secret, now);
  }

  /** The inline dashboard, shown a token from the router's signup signed with the same
      secret, greets "undefined": that token carries no username. */
  lemma DashboardOnRouterToken(id: nat, secret: string, now: int, later: int)
    requires now <= later < now + TokenLifetime
    ensures UserAuth.Dashboard(Some(BearerHeader(Sign(Claims(Some(id), None, None), secret, now))), secret, later)
            == UserAuth.Reply(200, UserAuth.Message("Welcome to the dashboard, undefined!"))
  {
    assert "Welcome to the dashboard, " + UserAuth.Display(None) + "!" == "Welcome to the dashboard, undefined!";
  }
}
