/** The logged-in student's own profile (Controllers/studentController.js):
    reading it without the password, and the update that refuses to touch
    the password. */
module StudentProfile {
  import opened Common
  import opened Errors
  import opened StudentSchema
  import opened Users

  /** A student as the handlers send it: every field except `password`. */
  datatype StudentView = StudentView(
    id: Id,
    name: string,
    username: string,
    email: string,
    phone: string,
    bookings: seq<Id>)

  function HidePassword(id: Id, s: Student): (v: StudentView)
    ensures v.id == id && v.name == s.name && v.username == s.username
    ensures v.email == s.email && v.phone == s.phone && v.bookings == s.bookings
  {
    StudentView(id, s.name, s.username, s.email, s.phone, s.bookings)
  }

  /** `getStudentProfile`: a `null` caller makes the lookup throw (500); an
      id that is not a student's, including a tutor's or an admin's, gives
      404 'Student not found'; otherwise the student without the password. */
  function ProfileOf(students: map<Id, Student>, caller: Option<User>): (r: Reply<StudentView>)
    ensures caller.None? ==> r == Caught(NullUser)
    ensures caller.Some? && caller.value.id !in students ==> r == Err(404, Text("Student not found"))
    ensures caller.Some? && caller.value.id in students ==>
      r == Ok(200, HidePassword(caller.value.id, students[caller.value.id]))
  {
    if caller.None? then Caught(NullUser)
    else if caller.value.id !in students then Err(404, Text("Student not found"))
    else Ok(200, HidePassword(caller.value.id, students[caller.value.id]))
  }

  /** What `findByIdAndUpdate` gave back: the updated record (or `null` for
      an id with no student), a duplicate-key error (code 11000), or some
      other failure, such as a validator run on the update. */
  datatype WriteOutcome =
    | Written(updated: Option<Student>)
    | DuplicateKey
    | WriteFailed(message: Message)

  /** `const { password, ...updateData } = req.body`: the update is the
      body without its `password` key. */
  function UpdateDocument(body: map<string, Json>): (u: map<string, Json>)
    ensures "password" !in u
    ensures forall k :: k in u <==> k in body && k != "password"
    ensures forall k :: k in u ==> u[k] == body[k]
  {
    body - {"password"}
  }

  predicate PasswordGiven(body: map<string, Json>)
  {
    "password" in body && Truthy(body["password"])
  }

  /** `updateStudentProfile`. A truthy `password` is refused with 400
      before the caller is looked at; otherwise a `null` caller throws
      (500). A duplicate email or username gives 400, any other failure 500,
      and a successful write replies 200 with the updated record without
      its password, or `null` when no student has the caller's id. */
  function UpdateProfile(caller: Option<User>, body: map<string, Json>, outcome: WriteOutcome): (r: Reply<Option<StudentView>>)
    ensures PasswordGiven(body) ==> r == Err(400, Text("Use /auth/update-password to change password"))
    ensures !PasswordGiven(body) && caller.None? ==> r == Caught(NullUser)
    ensures !PasswordGiven(body) && caller.Some? ==>
      match outcome
      case DuplicateKey => r == Err(400, Text("Email or username already exists"))
      case WriteFailed(m) => r == Err(500, m)
      case Written(None) => r == Ok(200, None)
      case Written(Some(s)) => r == Ok(200, Some(HidePassword(caller.value.id, s)))
    ensures r.Ok? <==> !PasswordGiven(body) && caller.Some? && outcome.Written?
  {
    if PasswordGiven(body) then Err(400, Text("Use /auth/update-password to change password"))
    else if caller.None? then Caught(NullUser)
    else match outcome
      case DuplicateKey => Err(400, Text("Email or username already exists"))
      case WriteFailed(m) => Err(500, m)
      case Written(None) => Ok(200, None)
      case Written(Some(s)) => Ok(200, Some(HidePassword(caller.value.id, s)))
  }

  /** A falsy password (empty string, `false`, `0`, `null`) does not block
      the update, and it is not part of the update either. */
  lemma FalsyPasswordIsDropped(body: map<string, Json>, v: Json, caller: User, s: Student)
    requires !Truthy(v)
    ensures "password" !in UpdateDocument(body["password" := v])
    ensures UpdateProfile(Some(caller), body["password" := v], Written(Some(s))) == Ok(200, Some(HidePassword(caller.id, s)))
  {
  }
}
