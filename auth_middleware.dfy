/** The route guards of middleware/authMiddleware.js: `protect` reads the
    token off the `Authorization` header, verifies it, and looks the id up
    in the student, tutor and admin collections in that order; `isAdmin`
    lets through only callers whose id is an admin record. */
module AuthMiddleware {
  import opened Common
  import opened Errors
  import opened TutorSchema
  import opened StudentSchema
  import opened Users

  /** `req.headers.authorization?.split(' ')[1]`: `None` for `undefined`. */
  function BearerToken(header: Option<string>): (r: Option<string>)
    ensures r.Some? ==> ' ' !in r.value
  {
    if header.None? then None
    else
      var parts := Split(header.value, ' ');
      if |parts| < 2 then None else Some(parts[1])
  }

  /** The token is the text between the first space and the next one (or
      the end), whatever the scheme word before it says. */
  lemma TokenAfterFirstSpace(scheme: string, token: string, rest: string)
    requires ' ' !in scheme && ' ' !in token
    requires rest == [] || rest[0] == ' '
    ensures BearerToken(Some(scheme + " " + token + rest)) == Some(token)
  {
    var h := scheme + " " + token + rest;
    assert h == scheme + [' '] + (token + rest);
    SplitAfterField(scheme, ' ', token + rest);
    SplitFirstField(token, ' ', rest);
  }

  /** A header with no space, such as a bare token, carries no token. */
  lemma NoSpaceNoToken(header: string)
    requires ' ' !in header
    ensures BearerToken(Some(header)) == None
  {
    SplitNoSeparator(header, ' ');
  }

  /** `Student.findById(id) || Tutor.findById(id) || Admin.findById(id)`:
      the first collection holding the id wins. */
  function Resolve(students: map<Id, Student>, tutors: map<Id, Tutor>, admins: map<Id, Admin>, id: Id): (u: Option<User>)
    ensures u.Some? ==> u.value.id == id
    ensures u.None? <==> id !in students && id !in tutors && id !in admins
    ensures id in students ==> u == Some(StudentUser(id, students[id]))
    ensures id !in students && id in tutors ==> u == Some(TutorUser(id, tutors[id]))
    ensures id !in students && id !in tutors && id in admins ==> u == Some(AdminUser(id, admins[id]))
  {
    if id in students then Some(StudentUser(id, students[id]))
    else if id in tutors then Some(TutorUser(id, tutors[id]))
    else if id in admins then Some(AdminUser(id, admins[id]))
    else None
  }

  /** The outcome of a middleware: pass to the handler with `req.user`, or
      reply and stop, or neither (an exception inside an `async` middleware
      the framework does not catch: the request gets no reply). */
  datatype Gate = Next(user: Option<User>) | Deny(status: int, message: string) | Unhandled(error: Thrown)

  /** `protect`. `verify` stands for `jwt.verify` with the server's secret:
      the id the token carries, or `None` when verification throws. */
  function Protect(header: Option<string>, verify: string -> Option<Id>,
                   students: map<Id, Student>, tutors: map<Id, Tutor>, admins: map<Id, Admin>): (g: Gate)
    ensures (BearerToken(header).None? || BearerToken(header) == Some("")) <==> g == Deny(401, "Not authorized")
    ensures g == Deny(401, "Invalid token") <==> Given(BearerToken(header)) && verify(BearerToken(header).value).None?
    ensures g.Next? <==> Given(BearerToken(header)) && verify(BearerToken(header).value).Some?
    ensures g.Next? ==> g.user == Resolve(students, tutors, admins, verify(BearerToken(header).value).value)
    ensures !g.Unhandled?
  {
    var token := BearerToken(header);
    if !Given(token) then Deny(401, "Not authorized")
    else
      var decoded := verify(token.value);
      if decoded.None? then Deny(401, "Invalid token")
      else Next(Resolve(students, tutors, admins, decoded.value))
  }

  /** A valid token whose id is in no collection still reaches the handler,
      with a `null` user. */
  lemma UnknownIdPassesAsNull(header: Option<string>, verify: string -> Option<Id>,
                              students: map<Id, Student>, tutors: map<Id, Tutor>, admins: map<Id, Admin>)
    requires Given(BearerToken(header)) && verify(BearerToken(header).value).Some?
    requires var id := verify(BearerToken(header).value).value; id !in students && id !in tutors && id !in admins
    ensures Protect(header, verify, students, tutors, admins) == Next(None)
  {
  }

  /** With ids unique across the three collections, as one id counter
      guarantees, the lookup order does not matter: the user found is the
      one record holding the id. */
  lemma ResolveUnique(students: map<Id, Student>, tutors: map<Id, Tutor>, admins: map<Id, Admin>, id: Id)
    requires students.Keys !! tutors.Keys && students.Keys !! admins.Keys && tutors.Keys !! admins.Keys
    ensures id in tutors ==> Resolve(students, tutors, admins, id) == Some(TutorUser(id, tutors[id]))
    ensures id in admins ==> Resolve(students, tutors, admins, id) == Some(AdminUser(id, admins[id]))
  {
    assert id in tutors ==> id !in students;
    assert id in admins ==> id !in students && id !in tutors;
  }

  /** `isAdmin`. A `null` user makes `req.user._id` throw inside the
      `async` middleware. */
  function IsAdmin(admins: map<Id, Admin>, user: Option<User>): (g: Gate)
    ensures user.None? ==> g == Unhandled(NullUser)
    ensures user.Some? ==> (g.Next? <==> user.value.id in admins)
    ensures user.Some? && user.value.id !in admins ==> g == Deny(403, "Admin access required")
    ensures g.Next? ==> g.user == user
  {
    if user.None? then Unhandled(NullUser)
    else if user.value.id !in admins then Deny(403, "Admin access required")
    else Next(user)
  }

  /** Behind `protect`, with unique ids, `isAdmin` passes exactly the admin
      records: a student or tutor is refused with 403. */
  lemma AdminGateAfterProtect(header: Option<string>, verify: string -> Option<Id>,
                              students: map<Id, Student>, tutors: map<Id, Tutor>, admins: map<Id, Admin>)
    requires students.Keys !! tutors.Keys && students.Keys !! admins.Keys && tutors.Keys !! admins.Keys
    requires Protect(header, verify, students, tutors, admins).Next?
    requires Protect(header, verify, students, tutors, admins).user.Some?
    ensures var u := Protect(header, verify, students, tutors, admins).user;
      IsAdmin(admins, u).Next? <==> u.value.AdminUser?
  {
    var id := verify(BearerToken(header).value).value;
    assert id in students ==> id !in admins;
    assert id in tutors ==> id !in admins;
  }
}
