/** The tutor-facing handlers of Controllers/tutorController.js: the
    search filter and its results, the recommended list, the public
    profile with its flattened rating, and the update object of a profile
    edit. */
module TutorQueries {
  import opened Common
  import opened Errors
  import opened Ordering
  import opened Ratings
  import opened TutorSchema
  import opened Users

  /** A tutor as the handlers return it: the record without `password`,
      with a rating of type `R` (the stored object, or one number). */
  datatype TutorProfile<R> = TutorProfile(
    id: Id,
    name: string,
    username: string,
    email: string,
    profilePicture: Option<string>,
    profession: Option<string>,
    about: Option<string>,
    price: real,
    subjects: seq<string>,
    locations: seq<string>,
    bookings: seq<Id>,
    reviews: seq<Id>,
    availability: seq<DayAvailability>,
    rating: R,
    isVerified: bool)

  function Hide(id: Id, t: Tutor): (p: TutorProfile<Rating>)
    ensures p.id == id && p.name == t.name && p.username == t.username && p.email == t.email
    ensures p.price == t.price && p.subjects == t.subjects && p.locations == t.locations
    ensures p.bookings == t.bookings && p.reviews == t.reviews && p.availability == t.availability
    ensures p.rating == t.rating && p.isVerified == t.isVerified
    ensures p.profilePicture == t.profilePicture && p.profession == t.profession && p.about == t.about
  {
    TutorProfile(id, t.name, t.username, t.email, t.profilePicture, t.profession, t.about, t.price,
                 t.subjects, t.locations, t.bookings, t.reviews, t.availability, t.rating, t.isVerified)
  }

  /** A numeric query parameter: its text, whose truthiness decides whether
      it is used, and `parseFloat` of that text. */
  datatype NumParam = NumParam(raw: string, value: real)

  predicate GivenNum(p: Option<NumParam>)
  {
    p.Some? && p.value.raw != ""
  }

  datatype SearchQuery = SearchQuery(
    subject: Option<string>,
    location: Option<string>,
    minPrice: Option<NumParam>,
    maxPrice: Option<NumParam>,
    rating: Option<NumParam>)

  datatype PriceRange = PriceRange(gte: Option<real>, lte: Option<real>)

  /** The Mongo filter document: `subjects`, `locations`, `price` and
      `rating.average`, each key present or absent. */
  datatype SearchFilter = SearchFilter(
    subjects: Option<string>,
    locations: Option<string>,
    price: Option<PriceRange>,
    ratingAtLeast: Option<real>)

  /** The filter a query gives: each key present exactly when its
      parameter is given, `$gte` only from `minPrice` and `$lte` only from
      `maxPrice`, so a `price` key is never empty. */
  function FilterFor(q: SearchQuery): (f: SearchFilter)
    ensures f.subjects.Some? <==> Given(q.subject)
    ensures f.subjects.Some? ==> f.subjects.value == q.subject.value
    ensures f.locations.Some? <==> Given(q.location)
    ensures f.locations.Some? ==> f.locations.value == q.location.value
    ensures f.price.Some? <==> GivenNum(q.minPrice) || GivenNum(q.maxPrice)
    ensures f.price.Some? ==> (f.price.value.gte.Some? <==> GivenNum(q.minPrice))
    ensures f.price.Some? ==> (f.price.value.lte.Some? <==> GivenNum(q.maxPrice))
    ensures f.price.Some? && f.price.value.gte.Some? ==> f.price.value.gte.value == q.minPrice.value.value
    ensures f.price.Some? && f.price.value.lte.Some? ==> f.price.value.lte.value == q.maxPrice.value.value
    ensures f.price.Some? ==> f.price.value.gte.Some? || f.price.value.lte.Some?
    ensures f.ratingAtLeast.Some? <==> GivenNum(q.rating)
    ensures f.ratingAtLeast.Some? ==> f.ratingAtLeast.value == q.rating.value.value
  {
    SearchFilter(
      if Given(q.subject) then q.subject else None,
      if Given(q.location) then q.location else None,
      if GivenNum(q.minPrice) || GivenNum(q.maxPrice) then
        Some(PriceRange(if GivenNum(q.minPrice) then Some(q.minPrice.value.value) else None,
                        if GivenNum(q.maxPrice) then Some(q.maxPrice.value.value) else None))
      else None,
      if GivenNum(q.rating) then Some(q.rating.value.value) else None)
  }

  /** The handler's own construction: an empty filter, then one
      conditional assignment per parameter. */
  method BuildSearchFilter(q: SearchQuery) returns (f: SearchFilter)
    ensures f == FilterFor(q)
  {
    f := SearchFilter(None, None, None, None);
    if Given(q.subject) {
      f := f.(subjects := Some(q.subject.value));
    }
    if Given(q.location) {
      f := f.(locations := Some(q.location.value));
    }
    if GivenNum(q.minPrice) || GivenNum(q.maxPrice) {
      f := f.(price := Some(PriceRange(None, None)));
      if GivenNum(q.minPrice) {
        f := f.(price := Some(f.price.value.(gte := Some(q.minPrice.value.value))));
      }
      if GivenNum(q.maxPrice) {
        f := f.(price := Some(f.price.value.(lte := Some(q.maxPrice.value.value))));
      }
    }
    if GivenNum(q.rating) {
      f := f.(ratingAtLeast := Some(q.rating.value.value));
    }
  }

  /** Whether a tutor satisfies a filter. A string against an array field
      matches when the array holds it. */
  predicate Matches(t: Tutor, f: SearchFilter)
  {
    && (f.subjects.Some? ==> f.subjects.value in t.subjects)
    && (f.locations.Some? ==> f.locations.value in t.locations)
    && (f.price.Some? && f.price.value.gte.Some? ==> t.price >= f.price.value.gte.value)
    && (f.price.Some? && f.price.value.lte.Some? ==> t.price <= f.price.value.lte.value)
    && (f.ratingAtLeast.Some? ==> t.rating.average >= f.ratingAtLeast.value)
  }

  /** The tutors a query selects, stated on the query: every given
      parameter is a constraint and an absent one is none. */
  lemma FilterMeaning(t: Tutor, q: SearchQuery)
    ensures Matches(t, FilterFor(q)) <==>
      && (Given(q.subject) ==> q.subject.value in t.subjects)
      && (Given(q.location) ==> q.location.value in t.locations)
      && (GivenNum(q.minPrice) ==> t.price >= q.minPrice.value.value)
      && (GivenNum(q.maxPrice) ==> t.price <= q.maxPrice.value.value)
      && (GivenNum(q.rating) ==> t.rating.average >= q.rating.value.value)
  {
  }

  /** Sort key `rating.average`. */
  function AverageKey(tutors: map<Id, Tutor>): Id -> real
  {
    x => if x in tutors then tutors[x].rating.average else 0.0
  }

  /** `Tutor.find(filter).sort({'rating.average': -1})`: the matching
      tutors, each once, best-rated first. */
  function SearchTutors(tutors: map<Id, Tutor>, q: SearchQuery): (r: seq<Id>)
    ensures forall x :: x in r <==> x in tutors && Matches(tutors[x], FilterFor(q))
    ensures forall x :: x in r ==> multiset(r)[x] == 1
    ensures SortedDesc(r, AverageKey(tutors))
  {
    var f := FilterFor(q);
    var ids := Select(NaturalOrder(tutors.Keys), x => x in tutors && Matches(tutors[x], f));
    IncreasingCountsOne(ids);
    SortDesc(ids, AverageKey(tutors))
  }

  /** `.limit(n)`: Mongo reads a negative limit as its absolute value,
      and a limit of 0 as no limit at all. */
  function Take(s: seq<Id>, limit: int): (r: seq<Id>)
    ensures |r| <= |s| && r == s[..|r|]
    ensures |r| == if limit == 0 || |s| < Abs(limit) then |s| else Abs(limit)
  {
    if limit == 0 || |s| < Abs(limit) then s else s[..Abs(limit)]
  }

  /** The verified tutors, best-rated first. */
  function VerifiedByRating(tutors: map<Id, Tutor>): (r: seq<Id>)
    ensures forall x :: x in r <==> x in tutors && tutors[x].isVerified
    ensures forall x :: x in r ==> multiset(r)[x] == 1
    ensures SortedDesc(r, AverageKey(tutors))
  {
    var ids := Select(NaturalOrder(tutors.Keys), x => x in tutors && tutors[x].isVerified);
    IncreasingCountsOne(ids);
    SortDesc(ids, AverageKey(tutors))
  }

  /** `getRecommendedTutors`: `limit` is the parsed parameter, or 10 when
      that is 0 or NaN. */
  function Recommended(tutors: map<Id, Tutor>, limitParam: Option<int>): (r: seq<Id>)
    ensures |r| <= Abs(IntOr(limitParam, 10))
    ensures forall x :: x in r ==> x in tutors && tutors[x].isVerified
    ensures forall x :: x in r ==> multiset(r)[x] == 1
    ensures SortedDesc(r, AverageKey(tutors))
  {
    var all := VerifiedByRating(tutors);
    var r := Take(all, IntOr(limitParam, 10));
    PrefixOfSortedDesc(all, AverageKey(tutors), |r|);
    assert forall x :: x in r ==> x in all;
    PrefixCountsOne(all, |r|);
    r
  }

  /** The recommended list is a top list: every verified tutor left out is
      rated no higher than every tutor listed. */
  lemma RecommendedIsTop(tutors: map<Id, Tutor>, limitParam: Option<int>, x: Id, y: Id)
    requires x in Recommended(tutors, limitParam)
    requires y in tutors && tutors[y].isVerified && y !in Recommended(tutors, limitParam)
    ensures tutors[x].rating.average >= tutors[y].rating.average
  {
    var all := VerifiedByRating(tutors);
    var r := Recommended(tutors, limitParam);
    assert r == Take(all, IntOr(limitParam, 10));
    assert r == all[..|r|];
    PrefixIsTop(all, AverageKey(tutors), |r|, x, y);
  }

  /** A list shorter than `limit` leaves no verified tutor out. */
  lemma RecommendedShort(tutors: map<Id, Tutor>, limitParam: Option<int>, y: Id)
    requires |Recommended(tutors, limitParam)| < Abs(IntOr(limitParam, 10))
    requires y in tutors && tutors[y].isVerified
    ensures y in Recommended(tutors, limitParam)
  {
    var all := VerifiedByRating(tutors);
    assert Recommended(tutors, limitParam) == Take(all, IntOr(limitParam, 10));
    assert y in all;
  }

  /** The default limit: an absent, zero or unparsable limit lists what a
      limit of 10 lists; any other limit `n` lists at most `|n|`. */
  lemma RecommendedDefault(tutors: map<Id, Tutor>, limitParam: Option<int>)
    ensures limitParam.None? || limitParam == Some(0) ==>
      Recommended(tutors, limitParam) == Recommended(tutors, Some(10))
    ensures limitParam.Some? && limitParam.value != 0 ==>
      |Recommended(tutors, limitParam)| <= Abs(limitParam.value)
  {
    if limitParam.None? || limitParam == Some(0) {
      assert IntOr(limitParam, 10) == IntOr(Some(10), 10);
    }
  }

  /** `getTutorById`'s reply: the lean record with `rating` replaced by a
      number. */
  type TutorView = TutorProfile<real>

  /** `rating?.average || 0`: a falsy average (only 0 can be) gives 0, so
      the number is always the average itself. */
  function FlattenRating(r: Rating): (v: real)
    ensures v == r.average
  {
    if r.average != 0.0 then r.average else 0.0
  }

  /** `{ ...tutor, rating: tutor.rating?.average || 0 }`: every field kept,
      the rating object replaced by its average. */
  function WithFlatRating(p: TutorProfile<Rating>): (v: TutorView)
    ensures v.rating == p.rating.average
    ensures v.id == p.id && v.name == p.name && v.username == p.username && v.email == p.email
    ensures v.profilePicture == p.profilePicture && v.profession == p.profession && v.about == p.about
    ensures v.price == p.price && v.subjects == p.subjects && v.locations == p.locations
    ensures v.bookings == p.bookings && v.reviews == p.reviews && v.availability == p.availability
    ensures v.isVerified == p.isVerified
  {
    TutorProfile(p.id, p.name, p.username, p.email, p.profilePicture, p.profession, p.about, p.price,
                 p.subjects, p.locations, p.bookings, p.reviews, p.availability, FlattenRating(p.rating), p.isVerified)
  }

  function TutorById(tutors: map<Id, Tutor>, id: Id): (r: Reply<TutorView>)
    ensures id !in tutors ==> r == Caught(App(NotFoundError("Tutor not found")))
    ensures id in tutors ==> r.Ok? && r.status == 200
    ensures r.Ok? ==> r.value == WithFlatRating(Hide(id, tutors[id])) && r.value.rating == tutors[id].rating.average
  {
    if id !in tutors then Caught(App(NotFoundError("Tutor not found")))
    else Ok(200, WithFlatRating(Hide(id, tutors[id])))
  }

  /** `getTutorProfile`: the caller's own tutor record. */
  function TutorProfileOf(tutors: map<Id, Tutor>, caller: Option<User>): (r: Reply<TutorProfile<Rating>>)
    ensures caller.None? ==> r == Caught(NullUser)
    ensures caller.Some? && caller.value.id !in tutors ==> r == Caught(App(NotFoundError("Tutor not found")))
    ensures r.Ok? <==> caller.Some? && caller.value.id in tutors
    ensures r.Ok? ==> r == Ok(200, Hide(caller.value.id, tutors[caller.value.id]))
  {
    if caller.None? then Caught(NullUser)
    else if caller.value.id !in tutors then Caught(App(NotFoundError("Tutor not found")))
    else Ok(200, Hide(caller.value.id, tutors[caller.value.id]))
  }

  /** `path.replace(/\\/g, "/")`. */
  function NormalizePath(s: string): (r: string)
    ensures |r| == |s|
    ensures forall i :: 0 <= i < |s| ==> r[i] == (if s[i] == '\\' then '/' else s[i])
    ensures '\\' !in r
  {
    if s == [] then [] else [if s[0] == '\\' then '/' else s[0]] + NormalizePath(s[1..])
  }

  /** Normalising twice is normalising once. */
  lemma NormalizeIdempotent(s: string)
    ensures NormalizePath(NormalizePath(s)) == NormalizePath(s)
  {
  }

  /** The keys `updateTutorProfile` copies out of the body. */
  const ProfileKeys: set<string> :=
    {"name", "profession", "about", "price", "subjects", "locations", "availability", "profilePicture"}

  /** The update object: `profilePicture` set to the normalised upload
      path when there is a file, then the eight whitelisted keys the body
      has (an `undefined` value is not sent to the store). */
  function ProfileUpdate(body: map<string, Json>, filePath: Option<string>): (u: map<string, Json>)
    ensures u.Keys <= ProfileKeys
    ensures forall k :: k in u <==> k in ProfileKeys && (k in body || (k == "profilePicture" && filePath.Some?))
    ensures forall k :: k in u && k != "profilePicture" ==> u[k] == body[k]
    ensures filePath.Some? ==> "profilePicture" in u && u["profilePicture"] == JStr(NormalizePath(filePath.value))
    ensures filePath.None? && "profilePicture" in body ==> u["profilePicture"] == body["profilePicture"]
  {
    var b := if filePath.Some? then body["profilePicture" := JStr(NormalizePath(filePath.value))] else body;
    map k | k in b && k in ProfileKeys :: b[k]
  }

  /** Fields outside the whitelist never reach the store, whatever the
      body holds. */
  lemma ProtectedFields(body: map<string, Json>, filePath: Option<string>)
    ensures var u := ProfileUpdate(body, filePath);
      "password" !in u && "rating" !in u && "isVerified" !in u && "bookings" !in u && "reviews" !in u && "username" !in u
  {
  }
}
