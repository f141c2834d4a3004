/** The tutor record and its schema (db/models/TutorModel.js): the weekday
    enum, the `HH:MM` pattern of slot times, the e-mail pattern of the
    username, the required and non-empty checks, and the creation
    defaults. */
module TutorSchema {
  import opened Common
  import opened Ratings

  datatype Weekday = Monday | Tuesday | Wednesday | Thursday | Friday | Saturday | Sunday

  /** The enum's spelling of each day, as `toLocaleDateString('en-US',
      {weekday: 'long'})` also spells it. */
  function DayName(d: Weekday): string
  {
    match d
    case Monday => "Monday"
    case Tuesday => "Tuesday"
    case Wednesday => "Wednesday"
    case Thursday => "Thursday"
    case Friday => "Friday"
    case Saturday => "Saturday"
    case Sunday => "Sunday"
  }

  /** The `day` enum: a string is accepted exactly when it names a day. */
  function ParseDay(s: string): Option<Weekday>
  {
    if s == "Monday" then Some(Monday)
    else if s == "Tuesday" then Some(Tuesday)
    else if s == "Wednesday" then Some(Wednesday)
    else if s == "Thursday" then Some(Thursday)
    else if s == "Friday" then Some(Friday)
    else if s == "Saturday" then Some(Saturday)
    else if s == "Sunday" then Some(Sunday)
    else None
  }

  lemma DayNames(d: Weekday, s: string)
    ensures ParseDay(DayName(d)) == Some(d)
    ensures ParseDay(s) == Some(d) ==> DayName(d) == s
    ensures ParseDay(s).None? <==> s !in {"Monday", "Tuesday", "Wednesday", "Thursday", "Friday", "Saturday", "Sunday"}
  {
  }

  predicate IsDigit(c: char)
  {
    '0' <= c <= '9'
  }

  function DigitValue(c: char): (n: nat)
    requires IsDigit(c)
    ensures n < 10
  {
    (c as int) - ('0' as int)
  }

  function DigitChar(n: nat): (c: char)
    requires n < 10
    ensures IsDigit(c) && DigitValue(c) == n
  {
    ((('0' as int) + n) as char)
  }

  /** `/^(0[0-9]|1[0-9]|2[0-3]):[0-5][0-9]$/`. */
  predicate IsTime(s: string)
  {
    && |s| == 5
    && (('0' <= s[0] <= '1' && IsDigit(s[1])) || (s[0] == '2' && '0' <= s[1] <= '3'))
    && s[2] == ':'
    && '0' <= s[3] <= '5'
    && IsDigit(s[4])
  }

  /** The hour and minute a matching string denotes. */
  function TimeOf(s: string): (hm: (nat, nat))
    requires IsTime(s)
    ensures hm.0 < 24 && hm.1 < 60
  {
    (DigitValue(s[0]) * 10 + DigitValue(s[1]), DigitValue(s[3]) * 10 + DigitValue(s[4]))
  }

  /** Zero-padded `HH:MM`. */
  function FormatTime(h: nat, m: nat): string
    requires h < 24 && m < 60
  {
    [DigitChar(h / 10), DigitChar(h % 10), ':', DigitChar(m / 10), DigitChar(m % 10)]
  }

  /** The pattern accepts exactly the zero-padded times from 00:00 to 23:59:
      every such time matches and reads back as itself, and every matching
      string is one of them. */
  lemma TimesRoundTrip(h: nat, m: nat, s: string)
    requires h < 24 && m < 60
    ensures IsTime(FormatTime(h, m)) && TimeOf(FormatTime(h, m)) == (h, m)
    ensures IsTime(s) ==> FormatTime(TimeOf(s).0, TimeOf(s).1) == s
  {
    var t := FormatTime(h, m);
    assert h / 10 <= 2;
    assert h / 10 == 2 ==> h % 10 <= 3;
    assert m / 10 <= 5;
    assert t[0] == DigitChar(h / 10) && t[1] == DigitChar(h % 10);
    assert t[3] == DigitChar(m / 10) && t[4] == DigitChar(m % 10);
    if IsTime(s) {
      var (hh, mm) := TimeOf(s);
      var u := FormatTime(hh, mm);
      assert hh / 10 == DigitValue(s[0]) && hh % 10 == DigitValue(s[1]);
      assert mm / 10 == DigitValue(s[3]) && mm % 10 == DigitValue(s[4]);
      assert u[0] == s[0] && u[1] == s[1] && u[2] == s[2] && u[3] == s[3] && u[4] == s[4];
    }
  }

  /** JavaScript's `\s`: the characters `\S` refuses. */
  predicate IsWhitespace(c: char)
  {
    || c == ' ' || c == '\t' || c == '\n' || c == '\r' || c == '\U{B}' || c == '\U{C}'
    || c == '\U{A0}' || c == '\U{1680}' || ('\U{2000}' <= c <= '\U{200A}')
    || c == '\U{2028}' || c == '\U{2029}' || c == '\U{202F}' || c == '\U{205F}'
    || c == '\U{3000}' || c == '\U{FEFF}'
  }

  predicate NoWhitespace(s: string)
  {
    forall k :: 0 <= k < |s| ==> !IsWhitespace(s[k])
  }

  /** `/^\S+@\S+\.\S+$/` read declaratively: no whitespace anywhere, and
      some `@` and some later `.` cut the string into three non-empty
      parts. */
  predicate EmailPattern(s: string)
  {
    && NoWhitespace(s)
    && exists i, j :: 1 <= i && i + 2 <= j && j + 2 <= |s| && s[i] == '@' && s[j] == '.'
  }

  /** The first `c` at or after `from`. */
  function FindFrom(s: string, c: char, from: nat): (r: Option<nat>)
    ensures r.Some? ==> from <= r.value < |s| && s[r.value] == c
    ensures r.Some? ==> forall k :: from <= k < r.value ==> s[k] != c
    ensures r.None? ==> forall k :: from <= k < |s| ==> s[k] != c
    decreases |s| - from
  {
    if from >= |s| then None
    else if s[from] == c then Some(from)
    else FindFrom(s, c, from + 1)
  }

  /** The last `c` before `bound`. */
  function FindLastBefore(s: string, c: char, bound: nat): (r: Option<nat>)
    requires bound <= |s|
    ensures r.Some? ==> r.value < bound && s[r.value] == c
    ensures r.Some? ==> forall k :: r.value < k < bound ==> s[k] != c
    ensures r.None? ==> forall k :: 0 <= k < bound ==> s[k] != c
  {
    if bound == 0 then None
    else if s[bound - 1] == c then Some(bound - 1)
    else FindLastBefore(s, c, bound - 1)
  }

  /** A one-pass matcher for the username pattern: take the first `@` that
      has a character before it and the last `.` that has one after it. */
  function MatchesEmail(s: string): (b: bool)
    ensures b <==> EmailPattern(s)
  {
    var at := FindFrom(s, '@', 1);
    var dot := if |s| >= 2 then FindLastBefore(s, '.', |s| - 1) else None;
    var b := NoWhitespace(s) && at.Some? && dot.Some? && at.value + 2 <= dot.value;
    assert EmailPattern(s) ==> b by {
      if EmailPattern(s) {
        var i, j :| 1 <= i && i + 2 <= j && j + 2 <= |s| && s[i] == '@' && s[j] == '.';
        assert at.Some? && at.value <= i;
        assert dot.Some? && j <= dot.value;
      }
    }
    assert b ==> s[at.value] == '@' && s[dot.value] == '.';
    b
  }

  datatype Slot = Slot(startTime: string, endTime: string)

  datatype DayAvailability = DayAvailability(day: string, slots: seq<Slot>)

  /** One availability entry passes the nested `day` and slot-time checks. */
  predicate ValidEntry(e: DayAvailability)
  {
    && ParseDay(e.day).Some?
    && forall k :: 0 <= k < |e.slots| ==> IsTime(e.slots[k].startTime) && IsTime(e.slots[k].endTime)
  }

  /** `availability` is required, non-empty, and every entry is valid. */
  predicate ValidAvailability(v: Option<seq<DayAvailability>>)
  {
    v.Some? && |v.value| > 0 && forall k :: 0 <= k < |v.value| ==> ValidEntry(v.value[k])
  }

  /** A stored tutor. `password` holds the stored credential. */
  datatype Tutor = Tutor(
    name: string,
    username: string,
    email: string,
    password: string,
    profilePicture: Option<string>,
    profession: Option<string>,
    about: Option<string>,
    price: real,
    subjects: seq<string>,
    locations: seq<string>,
    bookings: seq<Id>,
    reviews: seq<Id>,
    availability: seq<DayAvailability>,
    rating: Rating,
    isVerified: bool)

  /** The document handed to `Tutor.create`, fields absent as `None`;
      `subjects` and `locations` are arrays, which default to empty. */
  datatype TutorDraft = TutorDraft(
    name: Option<string>,
    username: Option<string>,
    password: Option<string>,
    email: Option<string>,
    profilePicture: Option<string>,
    profession: Option<string>,
    about: Option<string>,
    price: Option<real>,
    subjects: seq<string>,
    locations: seq<string>,
    availability: Option<seq<DayAvailability>>,
    isVerified: Option<bool>)

  /** Whether the validator of one path rejects the draft. A required
      string fails when absent or empty. */
  predicate TutorFails(d: TutorDraft, p: Path)
  {
    match p
    case NamePath => !Given(d.name)
    case UsernamePath => !Given(d.username) || !MatchesEmail(d.username.value)
    case PasswordPath => !Given(d.password) || Utf16Length(d.password.value) < 6
    case EmailPath => !Given(d.email)
    case PricePath => d.price.None?
    case SubjectsPath => |d.subjects| == 0
    case LocationsPath => |d.locations| == 0
    case AvailabilityPath => !ValidAvailability(d.availability)
    case _ => false
  }

  /** The tutor schema's paths, in declaration order. */
  const TutorPaths: seq<Path> :=
    [NamePath, UsernamePath, PasswordPath, EmailPath, PricePath, SubjectsPath, LocationsPath, AvailabilityPath]

  /** The paths of `ps` whose validators reject the draft, order kept. */
  function TutorFailing(d: TutorDraft, ps: seq<Path>): (r: seq<Path>)
    ensures forall p :: p in r <==> p in ps && TutorFails(d, p)
  {
    if ps == [] then []
    else (if TutorFails(d, ps[0]) then [ps[0]] else []) + TutorFailing(d, ps[1..])
  }

  /** The paths whose validators fail, in schema order. */
  function TutorFailures(d: TutorDraft): (paths: seq<Path>)
    ensures forall p :: p in paths <==> TutorFails(d, p)
  {
    TutorFailing(d, TutorPaths)
  }

  /** Every field constraint of the tutor schema, stated declaratively. */
  predicate TutorDraftValid(d: TutorDraft)
  {
    && Given(d.name) && Given(d.username) && EmailPattern(d.username.value)
    && Given(d.password) && Utf16Length(d.password.value) >= 6 && Given(d.email)
    && d.price.Some? && |d.subjects| > 0 && |d.locations| > 0 && ValidAvailability(d.availability)
  }

  /** A draft is accepted exactly when every field constraint holds. */
  lemma TutorAccepted(d: TutorDraft)
    ensures TutorFailures(d) == [] <==> TutorDraftValid(d)
  {
    var paths := TutorFailures(d);
    assert NamePath in paths <==> TutorFails(d, NamePath);
    assert UsernamePath in paths <==> TutorFails(d, UsernamePath);
    assert PasswordPath in paths <==> TutorFails(d, PasswordPath);
    assert EmailPath in paths <==> TutorFails(d, EmailPath);
    assert PricePath in paths <==> TutorFails(d, PricePath);
    assert SubjectsPath in paths <==> TutorFails(d, SubjectsPath);
    assert LocationsPath in paths <==> TutorFails(d, LocationsPath);
    assert AvailabilityPath in paths <==> TutorFails(d, AvailabilityPath);
    if paths != [] {
      assert paths[0] in paths;
    }
  }

  /** The stored tutor `Tutor.create` makes from a valid draft: no bookings
      or reviews, rating `{average: 0, total: 0}`, and `isVerified` false
      unless the draft sets it. */
  function NewTutor(d: TutorDraft): (t: Tutor)
    requires TutorDraftValid(d)
    ensures t.rating == Unrated && t.bookings == [] && t.reviews == []
    ensures t.isVerified == (d.isVerified == Some(true))
    ensures t.name == d.name.value && t.username == d.username.value && t.email == d.email.value
    ensures t.price == d.price.value && t.subjects == d.subjects && t.locations == d.locations
    ensures t.availability == d.availability.value && |t.availability| > 0
  {
    Tutor(d.name.value, d.username.value, d.email.value, d.password.value,
          d.profilePicture, d.profession, d.about, d.price.value,
          d.subjects, d.locations, [], [], d.availability.value,
          Unrated, if d.isVerified.Some? then d.isVerified.value else false)
  }
}
