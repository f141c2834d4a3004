/** Sign-in, sign-up guards and tokens of Controllers/authController.js.
    The password hash and its comparison (bcrypt) are parameters; a token
    is the payload it signs. Storing a new student is `Store.Db.StudentSignup`. */
module AuthRules {
  import opened Common
  import opened Errors
  import opened Ordering
  import opened StudentSchema
  import opened TutorSchema

  /** What `generateToken(id, role)` signs, with its lifetime. */
  datatype Token = Token(id: Id, role: string, expiresIn: string)

  function GenerateToken(id: Id, role: string): (t: Token)
    ensures t.id == id && t.role == role && t.expiresIn == "30d"
  {
    Token(id, role, "30d")
  }

  /** The reply of a successful sign-in or sign-up: `_id`, `name`, `email`,
      `isVerified` for tutors only, and the token. */
  datatype Session = Session(id: Id, name: string, email: string, isVerified: Option<bool>, token: Token)

  /** The fields of a stored account the handlers look at. */
  datatype Account = Account(name: string, username: string, email: string, password: string)

  function StudentAccount(s: Student): Account
  {
    Account(s.name, s.username, s.email, s.password)
  }

  function TutorAccount(t: Tutor): Account
  {
    Account(t.name, t.username, t.email, t.password)
  }

  /** One collection seen through the fields the handlers look at. */
  function Accounts<R>(records: map<Id, R>, account: R -> Account): (m: map<Id, Account>)
    ensures m.Keys == records.Keys
    ensures forall x :: x in m ==> m[x] == account(records[x])
  {
    map x | x in records :: account(records[x])
  }

  /** One clause of `{ $or: [{ email }, { username }] }`. Mongoose drops
      a filter key whose value is `undefined`, so a field missing from the
      body leaves the empty clause `{}`, which every account matches. */
  predicate FieldIs(given: Option<string>, stored: string)
  {
    given.None? || given.value == stored
  }

  /** The accounts `findOne({ $or: [{ email }, { username }] })` may
      return. */
  function Holders(accounts: map<Id, Account>, email: Option<string>, username: Option<string>): (h: set<Id>)
    ensures forall x :: x in h <==> x in accounts && (FieldIs(email, accounts[x].email) || FieldIs(username, accounts[x].username))
  {
    set x | x in accounts && (FieldIs(email, accounts[x].email) || FieldIs(username, accounts[x].username))
  }

  /** `findOne` returns the first match in natural order: the oldest. */
  function FirstHolder(accounts: map<Id, Account>, email: Option<string>, username: Option<string>): (r: Option<Id>)
    ensures r.None? <==> Holders(accounts, email, username) == {}
    ensures r.Some? ==> r.value in Holders(accounts, email, username)
    ensures r.Some? ==> forall y :: y in Holders(accounts, email, username) ==> r.value <= y
  {
    var h := Holders(accounts, email, username);
    if h == {} then None else Some(Least(h))
  }

  datatype Credentials = Credentials(email: Option<string>, username: Option<string>, password: Option<string>)

  const InvalidCredentials: Message := Text("Invalid credentials")

  /** `bcrypt.compare(undefined, hash)` rejects its arguments. */
  const MissingPassword: Message := Text("Illegal arguments: undefined, string")

  /** The shared part of `studentLogin` and `tutorLogin`: the id of the
      account signed in to. No holder, or a wrong password for the first
      holder, gives 401 'Invalid credentials'; a body without a password
      makes the comparison throw (500). Only the first holder is tried,
      even when a later one has the given password. */
  function Authenticate(accounts: map<Id, Account>, c: Credentials, matches: (string, string) -> bool): (r: Reply<Id>)
    ensures FirstHolder(accounts, c.email, c.username).None? ==> r == Err(401, InvalidCredentials)
    ensures FirstHolder(accounts, c.email, c.username).Some? && c.password.None? ==> r == Err(500, MissingPassword)
    ensures r.Ok? <==>
      && FirstHolder(accounts, c.email, c.username).Some? && c.password.Some?
      && matches(c.password.value, accounts[FirstHolder(accounts, c.email, c.username).value].password)
    ensures r.Ok? ==> r.status == 200 && r.value == FirstHolder(accounts, c.email, c.username).value
    ensures r.Err? && c.password.Some? ==> r == Err(401, InvalidCredentials)
  {
    var first := FirstHolder(accounts, c.email, c.username);
    if first.None? then Err(401, InvalidCredentials)
    else if c.password.None? then Err(500, MissingPassword)
    else if !matches(c.password.value, accounts[first.value].password) then Err(401, InvalidCredentials)
    else Ok(200, first.value)
  }

  /** A successful sign-in is always to the oldest account holding the
      given email or username, and needs that account's password. */
  lemma SignInIsToOldestHolder(accounts: map<Id, Account>, c: Credentials, matches: (string, string) -> bool, y: Id)
    requires Authenticate(accounts, c, matches).Ok?
    requires y in accounts && (FieldIs(c.email, accounts[y].email) || FieldIs(c.username, accounts[y].username))
    ensures Authenticate(accounts, c, matches).value <= y
    ensures matches(c.password.value, accounts[Authenticate(accounts, c, matches).value].password)
  {
    assert y in Holders(accounts, c.email, c.username);
  }

  /** A body missing its email or its username matches every account, so
      it can only sign in to the oldest account of the collection, and
      then only with that account's password. */
  lemma OneFieldMatchesAll(accounts: map<Id, Account>, c: Credentials, matches: (string, string) -> bool)
    requires c.email.None? || c.username.None?
    ensures Holders(accounts, c.email, c.username) == accounts.Keys
    ensures Authenticate(accounts, c, matches).Ok? ==>
      forall y :: y in accounts ==> Authenticate(accounts, c, matches).value <= y
  {
    var h := Holders(accounts, c.email, c.username);
    assert forall y :: y in accounts ==> y in h by {
      forall y | y in accounts
        ensures y in h
      {
        assert FieldIs(c.email, accounts[y].email) || FieldIs(c.username, accounts[y].username);
      }
    }
    if Authenticate(accounts, c, matches).Ok? {
      forall y | y in accounts
        ensures Authenticate(accounts, c, matches).value <= y
      {
        SignInIsToOldestHolder(accounts, c, matches, y);
      }
    }
  }

  /** A newer account that shares an email or username with an older one
      can never be signed in to through that field. */
  lemma ShadowedAccount(accounts: map<Id, Account>, c: Credentials, matches: (string, string) -> bool, older: Id, newer: Id)
    requires older in accounts && newer in accounts && older < newer
    requires FieldIs(c.email, accounts[older].email) || FieldIs(c.username, accounts[older].username)
    ensures Authenticate(accounts, c, matches).Ok? ==> Authenticate(accounts, c, matches).value != newer
  {
    assert older in Holders(accounts, c.email, c.username);
  }

  /** `studentLogin`: 200 with the student's name, email and a "student"
      token. */
  function StudentLogin(students: map<Id, Student>, c: Credentials, matches: (string, string) -> bool): (r: Reply<Session>)
    ensures r.Err? <==> Authenticate(Accounts(students, StudentAccount), c, matches).Err?
    ensures r.Err? ==> r == Err(Authenticate(Accounts(students, StudentAccount), c, matches).status, Authenticate(Accounts(students, StudentAccount), c, matches).message)
    ensures r.Ok? ==> var id := Authenticate(Accounts(students, StudentAccount), c, matches).value;
      && r.status == 200 && id in students
      && r.value == Session(id, students[id].name, students[id].email, None, GenerateToken(id, "student"))
  {
    match Authenticate(Accounts(students, StudentAccount), c, matches)
    case Err(s, m) => Err(s, m)
    case Ok(_, id) => Ok(200, Session(id, students[id].name, students[id].email, None, GenerateToken(id, "student")))
  }

  /** `tutorLogin`: as for students, with `isVerified` and a "tutor"
      token; an unverified tutor can sign in. */
  function TutorLogin(tutors: map<Id, Tutor>, c: Credentials, matches: (string, string) -> bool): (r: Reply<Session>)
    ensures r.Err? <==> Authenticate(Accounts(tutors, TutorAccount), c, matches).Err?
    ensures r.Err? ==> r == Err(Authenticate(Accounts(tutors, TutorAccount), c, matches).status, Authenticate(Accounts(tutors, TutorAccount), c, matches).message)
    ensures r.Ok? ==> var id := Authenticate(Accounts(tutors, TutorAccount), c, matches).value;
      && r.status == 200 && id in tutors
      && r.value == Session(id, tutors[id].name, tutors[id].email, Some(tutors[id].isVerified), GenerateToken(id, "tutor"))
  {
    match Authenticate(Accounts(tutors, TutorAccount), c, matches)
    case Err(s, m) => Err(s, m)
    case Ok(_, id) => Ok(200, Session(id, tutors[id].name, tutors[id].email, Some(tutors[id].isVerified), GenerateToken(id, "tutor")))
  }

  /** The body fields `tutorSignup` reads. */
  datatype TutorSignupBody = TutorSignupBody(
    name: Option<string>,
    username: Option<string>,
    email: Option<string>,
    password: Option<string>,
    profession: Option<string>,
    availability: Option<seq<DayAvailability>>)

  /** The document `tutorSignup` hands to `Tutor.create`: no price, no
      subjects, no locations, `isVerified: false`. */
  function SignupDraft(b: TutorSignupBody): (d: TutorDraft)
    ensures d.price.None? && d.subjects == [] && d.locations == []
    ensures d.isVerified == Some(false)
    ensures d.name == b.name && d.username == b.username && d.email == b.email && d.password == b.password
    ensures d.profession == b.profession && d.availability == b.availability
  {
    TutorDraft(b.name, b.username, b.password, b.email, None, b.profession, None, None, [], [], b.availability, Some(false))
  }

  const NoAvailability: Message := Text("At least one availability slot is required")

  /** `tutorSignup`. A missing or empty availability gives 400; an existing
      username or email reaches `new ConflictError`, which this file never
      imports (500); anything else reaches `Tutor.create`, whose validators
      always reject the document since the price, subjects and locations
      they require are never passed (500). No sign-up creates a tutor. */
  function TutorSignup(tutors: map<Id, Tutor>, b: TutorSignupBody): (r: Reply<Session>)
    ensures r.Err?
    ensures b.availability.None? || b.availability.value == [] ==> r == Err(400, NoAvailability)
    ensures b.availability.Some? && b.availability.value != [] ==>
      if Holders(Accounts(tutors, TutorAccount), b.email, b.username) != {} then r == Caught(ConflictErrorNotImported)
      else r == Err(500, SchemaRejected("Tutor", TutorFailures(SignupDraft(b))))
    ensures r.status in {400, 500}
  {
    if b.availability.None? || b.availability.value == [] then Err(400, NoAvailability)
    else if Holders(Accounts(tutors, TutorAccount), b.email, b.username) != {} then Caught(ConflictErrorNotImported)
    else Err(500, MessageOf(Validation("Tutor", TutorFailures(SignupDraft(b)))))
  }

  /** The validation failure always names the price, subjects and
      locations, whatever the body holds. */
  lemma TutorSignupAlwaysRejected(b: TutorSignupBody)
    ensures var paths := TutorFailures(SignupDraft(b));
      PricePath in paths && SubjectsPath in paths && LocationsPath in paths
    ensures !TutorDraftValid(SignupDraft(b))
  {
    var d := SignupDraft(b);
    assert TutorFails(d, PricePath);
    assert TutorFails(d, SubjectsPath);
    assert TutorFails(d, LocationsPath);
  }

  /** `logout`: nothing is revoked on the server; the client drops the
      token, so any token issued before stays valid for its 30 days. */
  function Logout(): (r: Reply<string>)
    ensures r.Ok? && r.status == 200 && r.value == "Logged out successfully"
  {
    Ok(200, "Logged out successfully")
  }
}
