/** What every handler of the database keeps true: ids below the shared
    counter, disjoint account collections, one review per student and
    tutor, stored ratings equal to the recount of the reviews, unique
    student handles; with the collection updates the handlers make and
    the lemmas that each update keeps all of it. */
module StoreInvariants {
  import opened Common
  import opened Ordering
  import opened Ratings
  import opened TutorSchema
  import opened StudentSchema
  import opened BookingSchema
  import opened ReviewSchema
  import opened Users
  import opened ReviewRules
  /** Every id handed out so far lies below `next`. */
  predicate KeysBelow<V>(m: map<Id, V>, next: Id)
  {
    forall k :: k in m ==> k < next
  }

  /** So do the booking ids listed on tutors and students. */
  predicate TutorListsBelow(tutors: map<Id, Tutor>, next: Id)
  {
    forall t :: t in tutors ==> forall x :: x in tutors[t].bookings ==> x < next
  }

  predicate StudentListsBelow(students: map<Id, Student>, next: Id)
  {
    forall s :: s in students ==> forall x :: x in students[s].bookings ==> x < next
  }

  /** The duplicate check of `createReview` keeps one review per student
      and tutor. */
  predicate OneReviewPerPair(reviews: map<Id, Review>)
  {
    forall a, b :: a in reviews && b in reviews ==>
      (reviews[a].studentId == reviews[b].studentId && reviews[a].tutorId == reviews[b].tutorId ==> a == b)
  }

  /** Each tutor's stored rating is the recount of its reviews. */
  predicate RatingsCurrent(tutors: map<Id, Tutor>, reviews: map<Id, Review>)
  {
    forall t {:trigger Recount(reviews, t)} :: t in tutors ==> tutors[t].rating == Recount(reviews, t)
  }

  /** No two students share a username or an email. */
  predicate UniqueHandles(students: map<Id, Student>)
  {
    forall a, b :: a in students && b in students && a != b ==>
      students[a].username != students[b].username && students[a].email != students[b].email
  }

  /** `true` when someone else already holds the email or the username. */
  predicate Taken(students: map<Id, Student>, email: string, username: string)
  {
    exists x :: x in students && (students[x].email == email || students[x].username == username)
  }

  /** `Review.findOne({ studentId, tutorId })` finds a review. */
  predicate Reviewed(reviews: map<Id, Review>, student: Id, tutor: Id)
  {
    exists k :: k in reviews && reviews[k].studentId == student && reviews[k].tutorId == tutor
  }

  /** What `Review.findOne({ studentId, tutorId })` finds for a body whose
      `tutorId` may be missing: Mongoose drops an `undefined` key, so
      without a `tutorId` any review by the student is found. */
  predicate ReviewFound(reviews: map<Id, Review>, student: Id, tutorId: Option<Id>)
  {
    if tutorId.Some? then Reviewed(reviews, student, tutorId.value)
    else exists k :: k in reviews && reviews[k].studentId == student
  }

  /** `$push: { bookings: k }`. */
  function PushTutor(t: Tutor, k: Id): (u: Tutor)
    ensures u == t.(bookings := t.bookings + [k])
  {
    t.(bookings := t.bookings + [k])
  }

  function PushStudent(s: Student, k: Id): (u: Student)
    ensures u == s.(bookings := s.bookings + [k])
  {
    s.(bookings := s.bookings + [k])
  }

  /** `$pull: { bookings: k }`: every occurrence of `k` goes, the rest keep
      their order. */
  function Pull(s: seq<Id>, k: Id): (r: seq<Id>)
    ensures k !in r
    ensures forall x :: x in r <==> x in s && x != k
    ensures |r| <= |s|
  {
    Select(s, x => x != k)
  }

  /** A booking id new to a list occurs in it exactly once after the push. */
  lemma PushedOnce(s: seq<Id>, k: Id)
    requires k !in s
    ensures multiset(s + [k])[k] == 1
  {
    assert multiset(s)[k] == 0;
  }

  /** Adding a review below the counter keeps every other tutor's rating
      current, and the recount of its own tutor gains exactly its rating. */
  lemma InsertKeepsRatings(tutors: map<Id, Tutor>, reviews: map<Id, Review>, k: Id, r: Review)
    requires RatingsCurrent(tutors, reviews)
    requires forall x :: x in reviews ==> x < k
    ensures forall t :: t in tutors && t != r.tutorId ==> tutors[t].rating == Recount(reviews[k := r], t)
    ensures Recount(reviews[k := r], r.tutorId) == Aggregate(RatingList(reviews, ReviewsOf(reviews, r.tutorId)) + [r.rating])
    ensures Recount(reviews[k := r], r.tutorId).total == Recount(reviews, r.tutorId).total + 1
  {
    forall t | t in tutors && t != r.tutorId
      ensures tutors[t].rating == Recount(reviews[k := r], t)
    {
      RecountAfterInsert(reviews, k, r, r.tutorId);
      RecountAfterInsert(reviews, k, r, t);
    }
    RecountAfterInsert(reviews, k, r, r.tutorId);
    ReviewsAfterInsert(reviews, k, r, r.tutorId);
    RecountMeaning(reviews, r.tutorId);
    RecountMeaning(reviews[k := r], r.tutorId);
  }

  /** Removing a review keeps every other tutor's rating current, and the
      recount of its own tutor loses exactly one review. */
  lemma RemoveKeepsRatings(tutors: map<Id, Tutor>, reviews: map<Id, Review>, k: Id)
    requires RatingsCurrent(tutors, reviews)
    requires k in reviews
    ensures forall t :: t in tutors && t != reviews[k].tutorId ==> tutors[t].rating == Recount(reviews - {k}, t)
    ensures Recount(reviews - {k}, reviews[k].tutorId).total == Recount(reviews, reviews[k].tutorId).total - 1
  {
    forall t | t in tutors && t != reviews[k].tutorId
      ensures tutors[t].rating == Recount(reviews - {k}, t)
    {
      RecountAfterRemove(reviews, k, t);
    }
    var t := reviews[k].tutorId;
    RecountAfterRemove(reviews, k, t);
    RecountMeaning(reviews, t);
    RecountMeaning(reviews - {k}, t);
    SelectDropsOne(ReviewsOf(reviews, t), k);
  }

  /** What every handler keeps true of the store. */
  predicate Consistent(tutors: map<Id, Tutor>, students: map<Id, Student>, admins: map<Id, Admin>,
                       bookings: map<Id, Booking>, reviews: map<Id, Review>, next: Id)
  {
    && KeysBelow(tutors, next) && KeysBelow(students, next) && KeysBelow(admins, next)
    && KeysBelow(bookings, next) && KeysBelow(reviews, next)
    && tutors.Keys !! students.Keys && tutors.Keys !! admins.Keys && students.Keys !! admins.Keys
    && TutorListsBelow(tutors, next) && StudentListsBelow(students, next)
    && RatingsInRange(reviews) && OneReviewPerPair(reviews)
    && RatingsCurrent(tutors, reviews)
    && UniqueHandles(students)
  }

  /** `Student.findByIdAndUpdate(id, { $push: { bookings: k } })`: no
      change when no student has the id. */
  function PushOnStudent(students: map<Id, Student>, id: Id, k: Id): (m: map<Id, Student>)
    ensures m.Keys == students.Keys
    ensures id in students ==> m == students[id := PushStudent(students[id], k)]
    ensures id !in students ==> m == students
  {
    if id in students then students[id := PushStudent(students[id], k)] else students
  }

  /** Storing a booking under the next id keeps the store consistent. */
  lemma BookingKeepsConsistent(tutors: map<Id, Tutor>, students: map<Id, Student>, admins: map<Id, Admin>,
                               bookings: map<Id, Booking>, reviews: map<Id, Review>, next: Id, b: Booking,
                               bookings': map<Id, Booking>)
    requires Consistent(tutors, students, admins, bookings, reviews, next)
    requires bookings' == bookings[next := b]
    ensures Consistent(tutors, students, admins, bookings', reviews, next + 1)
  {
    assert KeysBelow(tutors, next + 1) && KeysBelow(students, next + 1) && KeysBelow(admins, next + 1);
    assert KeysBelow(reviews, next + 1) && KeysBelow(bookings', next + 1);
    assert TutorListsBelow(tutors, next + 1) && StudentListsBelow(students, next + 1);
  }

  /** Pushing an id already handed out onto a tutor's and a student's
      `bookings` keeps the store consistent. */
  lemma PushKeepsConsistent(tutors: map<Id, Tutor>, students: map<Id, Student>, admins: map<Id, Admin>,
                            bookings: map<Id, Booking>, reviews: map<Id, Review>, next: Id, t: Id, s: Id, k: Id,
                            tutors': map<Id, Tutor>, students': map<Id, Student>)
    requires Consistent(tutors, students, admins, bookings, reviews, next)
    requires t in tutors && k < next
    requires tutors' == tutors[t := PushTutor(tutors[t], k)] && students' == PushOnStudent(students, s, k)
    ensures Consistent(tutors', students', admins, bookings, reviews, next)
  {
    PushKeepsTutors(tutors, reviews, next, t, k);
    PushKeepsStudents(students, next, s, k);
  }

  lemma PushKeepsTutors(tutors: map<Id, Tutor>, reviews: map<Id, Review>, next: Id, t: Id, k: Id)
    requires KeysBelow(tutors, next) && TutorListsBelow(tutors, next) && RatingsCurrent(tutors, reviews)
    requires t in tutors && k < next
    ensures var tutors' := tutors[t := PushTutor(tutors[t], k)];
      && tutors'.Keys == tutors.Keys
      && KeysBelow(tutors', next) && TutorListsBelow(tutors', next) && RatingsCurrent(tutors', reviews)
  {
    var tutors' := tutors[t := PushTutor(tutors[t], k)];
    assert forall x :: x in tutors' ==> tutors'[x].rating == tutors[x].rating;
  }

  lemma PushKeepsStudents(students: map<Id, Student>, next: Id, s: Id, k: Id)
    requires KeysBelow(students, next) && StudentListsBelow(students, next) && UniqueHandles(students)
    requires k < next
    ensures var students' := PushOnStudent(students, s, k);
      && students'.Keys == students.Keys
      && KeysBelow(students', next) && StudentListsBelow(students', next) && UniqueHandles(students')
  {
    var students' := PushOnStudent(students, s, k);
    assert forall x :: x in students' ==> students'[x].username == students[x].username && students'[x].email == students[x].email;
  }

  /** Setting a tutor's `isVerified` keeps the store consistent. */
  lemma VerifyKeepsConsistent(tutors: map<Id, Tutor>, students: map<Id, Student>, admins: map<Id, Admin>,
                              bookings: map<Id, Booking>, reviews: map<Id, Review>, next: Id, t: Id,
                              tutors': map<Id, Tutor>)
    requires Consistent(tutors, students, admins, bookings, reviews, next)
    requires t in tutors && tutors' == tutors[t := tutors[t].(isVerified := true)]
    ensures Consistent(tutors', students, admins, bookings, reviews, next)
  {
    assert RatingsCurrent(tutors', reviews) by {
      SameRatings(tutors, tutors', reviews);
    }
    assert TutorListsBelow(tutors', next) by {
      assert forall x :: x in tutors' ==> tutors'[x].bookings == tutors[x].bookings;
    }
    assert tutors'.Keys == tutors.Keys;
  }

  /** `Model.findByIdAndUpdate(id, { $pull: { bookings: k } })` on each
      collection: no change when the id is not there. */
  function PullOnTutor(tutors: map<Id, Tutor>, id: Id, k: Id): (m: map<Id, Tutor>)
    ensures m.Keys == tutors.Keys
    ensures id in tutors ==> m == tutors[id := tutors[id].(bookings := Pull(tutors[id].bookings, k))]
    ensures id !in tutors ==> m == tutors
  {
    if id in tutors then tutors[id := tutors[id].(bookings := Pull(tutors[id].bookings, k))] else tutors
  }

  function PullOnStudent(students: map<Id, Student>, id: Id, k: Id): (m: map<Id, Student>)
    ensures m.Keys == students.Keys
    ensures id in students ==> m == students[id := students[id].(bookings := Pull(students[id].bookings, k))]
    ensures id !in students ==> m == students
  {
    if id in students then students[id := students[id].(bookings := Pull(students[id].bookings, k))] else students
  }

  lemma PullKeepsTutors(tutors: map<Id, Tutor>, reviews: map<Id, Review>, next: Id, t: Id, k: Id)
    requires KeysBelow(tutors, next) && TutorListsBelow(tutors, next) && RatingsCurrent(tutors, reviews)
    ensures var tutors' := PullOnTutor(tutors, t, k);
      KeysBelow(tutors', next) && TutorListsBelow(tutors', next) && RatingsCurrent(tutors', reviews)
  {
    var tutors' := PullOnTutor(tutors, t, k);
    SameRatings(tutors, tutors', reviews);
    assert TutorListsBelow(tutors', next) by {
      forall x, y | x in tutors' && y in tutors'[x].bookings
        ensures y < next
      {
        assert y in tutors[x].bookings;
      }
    }
  }

  /** Changing tutors in anything but their ratings keeps the ratings
      current. */
  lemma SameRatings(tutors: map<Id, Tutor>, tutors': map<Id, Tutor>, reviews: map<Id, Review>)
    requires RatingsCurrent(tutors, reviews)
    requires tutors'.Keys == tutors.Keys
    requires forall x :: x in tutors ==> tutors'[x].rating == tutors[x].rating
    ensures RatingsCurrent(tutors', reviews)
  {
  }

  lemma PullKeepsStudents(students: map<Id, Student>, next: Id, s: Id, k: Id)
    requires KeysBelow(students, next) && StudentListsBelow(students, next) && UniqueHandles(students)
    ensures var students' := PullOnStudent(students, s, k);
      KeysBelow(students', next) && StudentListsBelow(students', next) && UniqueHandles(students')
  {
    var students' := PullOnStudent(students, s, k);
    assert forall x :: x in students' ==> students'[x].username == students[x].username && students'[x].email == students[x].email;
  }

  /** Deleting a booking and pulling its id from its student and tutor
      keeps the store consistent. */
  lemma UnbookKeepsConsistent(tutors: map<Id, Tutor>, students: map<Id, Student>, admins: map<Id, Admin>,
                              bookings: map<Id, Booking>, reviews: map<Id, Review>, next: Id, k: Id)
    requires Consistent(tutors, students, admins, bookings, reviews, next)
    requires k in bookings
    ensures Consistent(PullOnTutor(tutors, bookings[k].tutorId, k), PullOnStudent(students, bookings[k].studentId, k), admins,
                       bookings - {k}, reviews, next)
  {
    PullKeepsTutors(tutors, reviews, next, bookings[k].tutorId, k);
    PullKeepsStudents(students, next, bookings[k].studentId, k);
  }

  /** `Tutor.findByIdAndUpdate(t, { rating })`: no change when there is no
      such tutor. */
  function Rerate(tutors: map<Id, Tutor>, t: Id, rating: Rating): (m: map<Id, Tutor>)
    ensures m.Keys == tutors.Keys
    ensures t in tutors ==> m == tutors[t := tutors[t].(rating := rating)]
    ensures t !in tutors ==> m == tutors
  {
    if t in tutors then tutors[t := tutors[t].(rating := rating)] else tutors
  }

  /** Recounting a tutor in a consistent store rewrites the rating already
      stored, so a second recount with no change in between changes
      nothing: the recount reads the whole current review set. */
  lemma RecountIsStable(tutors: map<Id, Tutor>, reviews: map<Id, Review>, t: Id)
    requires RatingsCurrent(tutors, reviews)
    ensures Rerate(tutors, t, Recount(reviews, t)) == tutors
  {
  }

  lemma RerateKeepsLists(tutors: map<Id, Tutor>, next: Id, t: Id, rating: Rating)
    requires KeysBelow(tutors, next) && TutorListsBelow(tutors, next)
    ensures KeysBelow(Rerate(tutors, t, rating), next) && TutorListsBelow(Rerate(tutors, t, rating), next)
    ensures KeysBelow(Rerate(tutors, t, rating), next + 1) && TutorListsBelow(Rerate(tutors, t, rating), next + 1)
  {
    var tutors' := Rerate(tutors, t, rating);
    assert forall x :: x in tutors' ==> tutors'[x].bookings == tutors[x].bookings;
  }

  /** Recounting tutor `t` makes every rating current when all the others
      already are. */
  lemma RerateCurrent(tutors: map<Id, Tutor>, reviews: map<Id, Review>, t: Id)
    requires forall x :: x in tutors && x != t ==> tutors[x].rating == Recount(reviews, x)
    ensures RatingsCurrent(Rerate(tutors, t, Recount(reviews, t)), reviews)
  {
  }

  lemma OnePairAfterInsert(reviews: map<Id, Review>, next: Id, rv: Review)
    requires OneReviewPerPair(reviews) && KeysBelow(reviews, next)
    requires !Reviewed(reviews, rv.studentId, rv.tutorId)
    ensures OneReviewPerPair(reviews[next := rv])
  {
  }

  /** Storing a review under the next id, with a rating in range and no
      earlier review by the same student of the same tutor, and recounting
      its tutor keeps the store consistent. */
  lemma ReviewKeepsConsistent(tutors: map<Id, Tutor>, students: map<Id, Student>, admins: map<Id, Admin>,
                              bookings: map<Id, Booking>, reviews: map<Id, Review>, next: Id, rv: Review,
                              tutors': map<Id, Tutor>, reviews': map<Id, Review>)
    requires Consistent(tutors, students, admins, bookings, reviews, next)
    requires 1 <= rv.rating <= 5 && !Reviewed(reviews, rv.studentId, rv.tutorId)
    requires reviews' == reviews[next := rv] && tutors' == Rerate(tutors, rv.tutorId, Recount(reviews', rv.tutorId))
    ensures Consistent(tutors', students, admins, bookings, reviews', next + 1)
  {
    InsertKeepsRatings(tutors, reviews, next, rv);
    RerateCurrent(tutors, reviews', rv.tutorId);
    RerateKeepsLists(tutors, next, rv.tutorId, Recount(reviews', rv.tutorId));
    OnePairAfterInsert(reviews, next, rv);
  }

  /** Deleting a review and recounting its tutor keeps the store
      consistent. */
  lemma UnreviewKeepsConsistent(tutors: map<Id, Tutor>, students: map<Id, Student>, admins: map<Id, Admin>,
                                bookings: map<Id, Booking>, reviews: map<Id, Review>, next: Id, k: Id,
                                tutors': map<Id, Tutor>, reviews': map<Id, Review>)
    requires Consistent(tutors, students, admins, bookings, reviews, next)
    requires k in reviews
    requires reviews' == reviews - {k} && tutors' == Rerate(tutors, reviews[k].tutorId, Recount(reviews', reviews[k].tutorId))
    ensures Consistent(tutors', students, admins, bookings, reviews', next)
  {
    var t := reviews[k].tutorId;
    assert RatingsCurrent(tutors', reviews') by {
      RemoveKeepsRatings(tutors, reviews, k);
      RerateCurrent(tutors, reviews', t);
    }
    assert KeysBelow(tutors', next) && TutorListsBelow(tutors', next) && tutors'.Keys == tutors.Keys by {
      RerateKeepsLists(tutors, next, t, Recount(reviews', t));
    }
    assert OneReviewPerPair(reviews') && KeysBelow(reviews', next) && RatingsInRange(reviews');
  }

  /** Adding a student whose email and username nobody holds, with no
      bookings, under the next id keeps the store consistent. */
  lemma SignupKeepsConsistent(tutors: map<Id, Tutor>, students: map<Id, Student>, admins: map<Id, Admin>,
                              bookings: map<Id, Booking>, reviews: map<Id, Review>, next: Id, s: Student)
    requires Consistent(tutors, students, admins, bookings, reviews, next)
    requires s.bookings == [] && !Taken(students, s.email, s.username)
    ensures Consistent(tutors, students[next := s], admins, bookings, reviews, next + 1)
  {
    var students' := students[next := s];
    assert UniqueHandles(students') by {
      forall a, b | a in students' && b in students' && a != b
        ensures students'[a].username != students'[b].username && students'[a].email != students'[b].email
      {
        if a == next {
          assert b in students;
        } else if b == next {
          assert a in students;
        }
      }
    }
    assert KeysBelow(tutors, next + 1) && KeysBelow(admins, next + 1) && KeysBelow(bookings, next + 1) && KeysBelow(reviews, next + 1);
    assert TutorListsBelow(tutors, next + 1);
  }

  /** The recounted tutor of a new review: its rating is the aggregate of
      the earlier ratings followed by the new one, over one more review. */
  lemma InsertRerate(tutors: map<Id, Tutor>, reviews: map<Id, Review>, k: Id, rv: Review)
    requires RatingsCurrent(tutors, reviews) && KeysBelow(reviews, k)
    ensures var tutors' := Rerate(tutors, rv.tutorId, Recount(reviews[k := rv], rv.tutorId));
      rv.tutorId in tutors' ==>
        && tutors'[rv.tutorId].rating == Aggregate(RatingList(reviews, ReviewsOf(reviews, rv.tutorId)) + [rv.rating])
        && tutors'[rv.tutorId].rating.total == tutors[rv.tutorId].rating.total + 1
  {
    InsertKeepsRatings(tutors, reviews, k, rv);
  }

  /** The recounted tutor of a deleted review has one review fewer. */
  lemma RemoveRerate(tutors: map<Id, Tutor>, reviews: map<Id, Review>, k: Id)
    requires RatingsCurrent(tutors, reviews) && k in reviews
    ensures var t := reviews[k].tutorId;
      var tutors' := Rerate(tutors, t, Recount(reviews - {k}, t));
      t in tutors' ==> tutors'[t].rating.total == tutors[t].rating.total - 1
  {
    RemoveKeepsRatings(tutors, reviews, k);
  }
}
