/** The student and admin records (db/models/StudentModel.js,
    db/models/AdminModel.js): required fields, a password of at least six
    UTF-16 code units, and the student's default phone number. */
module StudentSchema {
  import opened Common

  /** `password` holds the stored credential. */
  datatype Student = Student(
    name: string,
    username: string,
    email: string,
    password: string,
    phone: string,
    bookings: seq<Id>)

  datatype Admin = Admin(name: string, email: string, password: string)

  datatype StudentDraft = StudentDraft(
    name: Option<string>,
    username: Option<string>,
    password: Option<string>,
    email: Option<string>,
    phone: Option<string>)

  predicate StudentFails(d: StudentDraft, p: Path)
  {
    match p
    case NamePath => !Given(d.name)
    case UsernamePath => !Given(d.username)
    case PasswordPath => !Given(d.password) || Utf16Length(d.password.value) < 6
    case EmailPath => !Given(d.email)
    case _ => false
  }

  /** The paths whose validators fail, in schema order. */
  function StudentFailures(d: StudentDraft): (paths: seq<Path>)
    ensures forall p :: p in paths <==> StudentFails(d, p)
  {
    (if StudentFails(d, NamePath) then [NamePath] else [])
    + (if StudentFails(d, UsernamePath) then [UsernamePath] else [])
    + (if StudentFails(d, PasswordPath) then [PasswordPath] else [])
    + (if StudentFails(d, EmailPath) then [EmailPath] else [])
  }

  predicate StudentDraftValid(d: StudentDraft)
  {
    Given(d.name) && Given(d.username) && Given(d.password) && Utf16Length(d.password.value) >= 6 && Given(d.email)
  }

  lemma StudentAccepted(d: StudentDraft)
    ensures StudentFailures(d) == [] <==> StudentDraftValid(d)
  {
    var paths := StudentFailures(d);
    if paths != [] {
      assert paths[0] in paths;
    }
  }

  const DefaultPhone: string := "1234567890"

  /** The stored student `Student.create` makes: no bookings, and the
      default phone number unless one is given. */
  function NewStudent(d: StudentDraft): (s: Student)
    requires StudentDraftValid(d)
    ensures s.bookings == []
    ensures s.phone == (if d.phone.Some? then d.phone.value else DefaultPhone)
    ensures s.name == d.name.value && s.username == d.username.value && s.email == d.email.value
    ensures Utf16Length(s.password) >= 6
  {
    Student(d.name.value, d.username.value, d.email.value, d.password.value,
            if d.phone.Some? then d.phone.value else DefaultPhone, [])
  }
}
