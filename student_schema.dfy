/** The `Student` schema of `BACKEND/models/Student.js`: five required strings, a
    unique email and a creation date that defaults to the time of creation. */
module StudentSchema {
  import opened Wrappers
  import opened Credentials

  /** A stored student; `id` stands for Mongo's `_id` and `password` holds the bcrypt hash. */
  datatype Student = Student(id: nat, name: string, email: string, password: PasswordHash,
                             institution: string, studentClass: string, createdAt: int)

  /** The fields handed to `new Student({...})`; any of them may be missing. */
  datatype Draft = Draft(name: Option<string>, email: Option<string>, password: Option<PasswordHash>,
                         institution: Option<string>, studentClass: Option<string>, createdAt: Option<int>)

  /** A required string passes Mongoose's check only when present and non-empty. */
  predicate Present(field: Option<string>) {
    field.Some? && field.value != ""
  }

  /** All five required fields are there. */
  predicate Complete(d: Draft) {
    && Present(d.name) && Present(d.email) && d.password.Some?
    && Present(d.institution) && Present(d.studentClass)
  }

  /** Schema validation of a draft at time `now`: a draft missing any required field is
      rejected; a complete one becomes a student with the draft's fields and, when the
      draft gives no `createdAt`, the current time. */
  function Validate(d: Draft, id: nat, now: int): (r: Option<Student>)
    ensures r.Some? <==> Complete(d)
    ensures d.name.None? || d.email.None? || d.password.None? ==> r.None?
    ensures d.institution.None? || d.studentClass.None? ==> r.None?
    ensures r.Some? ==> && r.value.id == id
                        && Some(r.value.name) == d.name && Some(r.value.email) == d.email
                        && Some(r.value.password) == d.password
                        && Some(r.value.institution) == d.institution
                        && Some(r.value.studentClass) == d.studentClass
    ensures r.Some? ==> r.value.createdAt == if d.createdAt.Some? then d.createdAt.value else now
  {
    if Complete(d) then
      Some(Student(id, d.name.value, d.email.value, d.password.value, d.institution.value,
                   d.studentClass.value, d.createdAt.GetOr(now)))
    else None
  }

  /** The unique index on `email`. */
  predicate EmailsUnique(students: seq<Student>) {
    forall i, j :: 0 <= i < j < |students| ==> students[i].email != students[j].email
  }

  /** A student as `.select('-password')` returns it. */
  datatype PublicStudent = PublicStudent(id: nat, name: string, email: string, institution: string,
                                         studentClass: string, createdAt: int)

  function WithoutPassword(s: Student): PublicStudent {
    PublicStudent(s.id, s.name, s.email, s.institution, s.studentClass, s.createdAt)
  }
}
