/** The database the handlers change: the five collections and the id
    counter they share, with the handlers that write to it as methods of
    `Db`: `createBooking` and `deleteBooking`
    (Controllers/bookingController.js), `createReview` and `deleteReview`
    (Controllers/reviewController.js), `verifyTutor`
    (Controllers/adminController.js) and `studentSignup`
    (Controllers/authController.js). */
module Store {
  import opened Common
  import opened Errors
  import opened Ordering
  import opened Ratings
  import opened TutorSchema
  import opened StudentSchema
  import opened BookingSchema
  import opened ReviewSchema
  import opened Users
  import opened BookingRules
  import opened ReviewRules
  import opened TutorQueries
  import opened AuthRules
  import opened StoreInvariants

  class Db {
    var tutors: map<Id, Tutor>
    var students: map<Id, Student>
    var admins: map<Id, Admin>
    var bookings: map<Id, Booking>
    var reviews: map<Id, Review>
    /** The next id to hand out. */
    var nextId: Id

    /** What every handler keeps true of the store. */
    predicate Valid()
      reads this
    {
      Consistent(tutors, students, admins, bookings, reviews, nextId)
    }

    /** A store seeded with accounts and no bookings or reviews. Tutors
        enter the store only this way; see `AuthRules.TutorSignup`. */
    constructor(seedTutors: map<Id, Tutor>, seedStudents: map<Id, Student>, seedAdmins: map<Id, Admin>, next: Id)
      requires KeysBelow(seedTutors, next) && KeysBelow(seedStudents, next) && KeysBelow(seedAdmins, next)
      requires seedTutors.Keys !! seedStudents.Keys && seedTutors.Keys !! seedAdmins.Keys && seedStudents.Keys !! seedAdmins.Keys
      requires TutorListsBelow(seedTutors, next) && StudentListsBelow(seedStudents, next)
      requires forall t :: t in seedTutors ==> seedTutors[t].rating == Unrated
      requires UniqueHandles(seedStudents)
      ensures Valid()
      ensures tutors == seedTutors && students == seedStudents && admins == seedAdmins
      ensures bookings == map[] && reviews == map[] && nextId == next
    {
      tutors := seedTutors;
      students := seedStudents;
      admins := seedAdmins;
      bookings := map[];
      reviews := map[];
      nextId := next;
      new;
      forall t | t in tutors
        ensures tutors[t].rating == Recount(reviews, t)
      {
        RecountMeaning(reviews, t);
      }
    }

    /** `verifyTutor`: sets `isVerified` and replies with the tutor without
        its password, or 404 when there is no such tutor. */
    method VerifyTutor(id: Id) returns (r: Reply<TutorProfile<Rating>>)
      requires Valid()
      modifies this
      ensures Valid()
      ensures id !in old(tutors) ==> r == Err(404, Text("Tutor not found")) && tutors == old(tutors)
      ensures id in old(tutors) ==> tutors == old(tutors)[id := old(tutors)[id].(isVerified := true)]
      ensures id in old(tutors) ==> r == Ok(200, Hide(id, tutors[id]))
      ensures students == old(students) && admins == old(admins) && bookings == old(bookings)
      ensures reviews == old(reviews) && nextId == old(nextId)
    {
      if id !in tutors {
        return Err(404, Text("Tutor not found"));
      }
      ghost var (t0, s0, a0, b0, r0, n0) := (tutors, students, admins, bookings, reviews, nextId);
      assert Consistent(t0, s0, a0, b0, r0, n0);
      tutors := tutors[id := tutors[id].(isVerified := true)];
      VerifyKeepsConsistent(t0, s0, a0, b0, r0, n0, id, tutors);
      r := Ok(200, Hide(id, tutors[id]));
    }

    /** The first write of `createBooking`: `Booking.create` under the next
        id. */
    method StoreBooking(b: Booking) returns (k: Id)
      requires Valid()
      modifies this`bookings, this`nextId
      ensures Valid()
      ensures k == old(nextId) && nextId == k + 1
      ensures bookings == old(bookings)[k := b]
    {
      k := nextId;
      ghost var (t0, s0, a0, b0, r0) := (tutors, students, admins, bookings, reviews);
      assert Consistent(t0, s0, a0, b0, r0, k);
      bookings := bookings[k := b];
      nextId := k + 1;
      BookingKeepsConsistent(t0, s0, a0, b0, r0, k, b, bookings);
    }

    /** The second write of `createBooking`: `$push` of the booking's id
        onto the tutor's `bookings` and onto the caller's when the caller
        is a student. */
    method PushBooking(t: Id, student: Id, k: Id)
      requires Valid()
      requires t in tutors && k < nextId
      modifies this`tutors, this`students
      ensures Valid()
      ensures tutors == old(tutors)[t := PushTutor(old(tutors)[t], k)]
      ensures students == PushOnStudent(old(students), student, k)
    {
      ghost var (t0, s0, a0, b0, r0, n0) := (tutors, students, admins, bookings, reviews, nextId);
      assert Consistent(t0, s0, a0, b0, r0, n0);
      tutors := tutors[t := PushTutor(tutors[t], k)];
      students := PushOnStudent(students, student, k);
      PushKeepsConsistent(t0, s0, a0, b0, r0, n0, t, student, k, tutors, students);
    }

    /** `createBooking` as intended: the first failing admission check,
        with nothing written, or the controller's `pending` record stored
        by `StoreBooking` and pushed onto both parties. The schema check
        that makes the handler as written fail is not applied (see
        `BookingRules.CreateBookingAsWritten`). */
    method CreateBooking(caller: Option<User>, q: BookingRequest) returns (r: Reply<(Id, Booking)>)
      requires Valid()
      modifies this`tutors, this`students, this`bookings, this`nextId
      ensures Valid()
      ensures Admit(old(tutors), old(bookings), caller, q).Some? ==>
        && r == Caught(Admit(old(tutors), old(bookings), caller, q).value)
        && tutors == old(tutors) && students == old(students) && bookings == old(bookings) && nextId == old(nextId)
      ensures Admit(old(tutors), old(bookings), caller, q).None? ==>
        var k := old(nextId);
        var student := caller.value.id;
        && r == Ok(201, (k, BookingRecord(student, q)))
        && bookings == old(bookings)[k := BookingRecord(student, q)]
        && tutors == old(tutors)[q.tutorId := PushTutor(old(tutors)[q.tutorId], k)]
        && students == PushOnStudent(old(students), student, k)
        && nextId == k + 1
        && multiset(tutors[q.tutorId].bookings)[k] == 1
    {
      var fail := Admit(tutors, bookings, caller, q);
      if fail.Some? {
        return Caught(fail.value);
      }
      var b := BookingRecord(caller.value.id, q);
      var k := StoreBooking(b);
      PushedOnce(tutors[q.tutorId].bookings, k);
      PushBooking(q.tutorId, caller.value.id, k);
      r := Ok(201, (k, b));
    }

    /** `deleteBooking`: removes the booking and pulls its id from its
        student's and its tutor's `bookings`, or 404 when there is no such
        booking. The caller is never consulted. */
    method DeleteBooking(id: Id) returns (r: Reply<string>)
      requires Valid()
      modifies this`tutors, this`students, this`bookings
      ensures Valid()
      ensures id !in old(bookings) ==>
        r == Caught(BookingNotFound) && tutors == old(tutors) && students == old(students) && bookings == old(bookings)
      ensures id in old(bookings) ==>
        && r == Ok(200, "Booking deleted")
        && bookings == old(bookings) - {id}
        && tutors == PullOnTutor(old(tutors), old(bookings)[id].tutorId, id)
        && students == PullOnStudent(old(students), old(bookings)[id].studentId, id)
    {
      if id !in bookings {
        return Caught(BookingNotFound);
      }
      var b := bookings[id];
      UnbookKeepsConsistent(tutors, students, admins, bookings, reviews, nextId, id);
      bookings := bookings - {id};
      students := PullOnStudent(students, b.studentId, id);
      tutors := PullOnTutor(tutors, b.tutorId, id);
      r := Ok(200, "Booking deleted");
    }

    /** The write half of `createReview`: `Review.create` under the next
        id, then the recount of its tutor. */
    method StoreReview(rv: Review) returns (k: Id)
      requires Valid()
      requires 1 <= rv.rating <= 5 && !Reviewed(reviews, rv.studentId, rv.tutorId)
      modifies this`tutors, this`reviews, this`nextId
      ensures Valid()
      ensures k == old(nextId) && nextId == k + 1
      ensures reviews == old(reviews)[k := rv]
      ensures tutors == Rerate(old(tutors), rv.tutorId, Recount(reviews, rv.tutorId))
    {
      k := nextId;
      ghost var (t0, s0, a0, b0, r0) := (tutors, students, admins, bookings, reviews);
      assert Consistent(t0, s0, a0, b0, r0, k);
      reviews := reviews[k := rv];
      tutors := Rerate(tutors, rv.tutorId, Recount(reviews, rv.tutorId));
      nextId := k + 1;
      ReviewKeepsConsistent(t0, s0, a0, b0, r0, k, rv, tutors, reviews);
    }

    /** `createReview`. A `null` caller throws (500); an existing review by
        the caller of the same tutor, or of any tutor when the body has no
        `tutorId`, reaches `new ConflictError`, which this file never
        imports (500); a draft the schema rejects gives 500;
        otherwise the review is stored and its tutor recounted, whether or
        not such a tutor exists. */
    method CreateReview(caller: Option<User>, tutorId: Option<Id>, rating: Option<int>, comment: Option<string>)
      returns (r: Reply<(Id, Review)>)
      requires Valid()
      modifies this`tutors, this`reviews, this`nextId
      ensures Valid()
      ensures caller.None? ==> r == Caught(NullUser)
      ensures caller.Some? && ReviewFound(old(reviews), caller.value.id, tutorId) ==>
        r == Caught(ConflictErrorNotImported)
      ensures caller.Some? && !ReviewFound(old(reviews), caller.value.id, tutorId) ==>
        var fails := ReviewFailures(ReviewDraft(Some(caller.value.id), tutorId, rating, comment));
        fails != [] ==> r == Caught(Validation("Review", fails))
      ensures r.Err? ==> tutors == old(tutors) && reviews == old(reviews) && nextId == old(nextId)
      ensures r.Ok? ==>
        var k := old(nextId);
        var t := tutorId.value;
        && caller.Some? && tutorId.Some? && rating.Some? && 1 <= rating.value <= 5
        && r == Ok(201, (k, Review(caller.value.id, t, rating.value, comment)))
        && reviews == old(reviews)[k := r.value.1]
        && nextId == k + 1
        && tutors == Rerate(old(tutors), t, Recount(reviews, t))
        && (t in tutors ==>
          && tutors[t].rating == Aggregate(RatingList(old(reviews), ReviewsOf(old(reviews), t)) + [rating.value])
          && tutors[t].rating.total == old(tutors)[t].rating.total + 1
          && 1.0 <= tutors[t].rating.average <= 5.0)
      ensures r.Ok? <==>
        && caller.Some? && !ReviewFound(old(reviews), caller.value.id, tutorId)
        && ReviewFailures(ReviewDraft(Some(caller.value.id), tutorId, rating, comment)) == []
    {
      if caller.None? {
        return Caught(NullUser);
      }
      var student := caller.value.id;
      if ReviewFound(reviews, student, tutorId) {
        return Caught(ConflictErrorNotImported);
      }
      var d := ReviewDraft(Some(student), tutorId, rating, comment);
      var fails := ReviewFailures(d);
      if fails != [] {
        return Caught(Validation("Review", fails));
      }
      ReviewAccepted(d, comment);
      var rv := NewReview(d);
      InsertRerate(tutors, reviews, nextId, rv);
      var k := StoreReview(rv);
      if rv.tutorId in tutors {
        RecountInRange(reviews, rv.tutorId);
      }
      r := Ok(201, (k, rv));
    }

    /** `deleteReview`. An unknown review gives 404; a `null` caller throws
        (500); anyone but the review's author reaches `new ForbiddenError`,
        which the error module does not export (500) — the admin exception
        never applies, since no caller has a `role`; the author's review is
        deleted and its tutor recounted. */
    method DeleteReview(caller: Option<User>, id: Id) returns (r: Reply<string>)
      requires Valid()
      modifies this`tutors, this`reviews
      ensures Valid()
      ensures id !in old(reviews) ==> r == Caught(App(NotFoundError("Review not found")))
      ensures id in old(reviews) && caller.None? ==> r == Caught(NullUser)
      ensures id in old(reviews) && caller.Some? && old(reviews)[id].studentId != caller.value.id ==>
        r == Caught(ForbiddenErrorNotExported)
      ensures r.Ok? <==> id in old(reviews) && caller.Some? && old(reviews)[id].studentId == caller.value.id
      ensures r.Err? ==> tutors == old(tutors) && reviews == old(reviews)
      ensures r.Ok? ==>
        var t := old(reviews)[id].tutorId;
        && r == Ok(200, "Review deleted successfully")
        && reviews == old(reviews) - {id}
        && tutors == Rerate(old(tutors), t, Recount(reviews, t))
        && (t in tutors ==> tutors[t].rating.total == old(tutors)[t].rating.total - 1)
    {
      if id !in reviews {
        return Caught(App(NotFoundError("Review not found")));
      }
      if caller.None? {
        return Caught(NullUser);
      }
      var rv := reviews[id];
      var isStudentOwner := rv.studentId == caller.value.id;
      var isAdmin := Role(caller.value) == Some("admin");
      if !isStudentOwner && !isAdmin {
        return Caught(ForbiddenErrorNotExported);
      }
      RemoveRerate(tutors, reviews, id);
      DropReview(id);
      r := Ok(200, "Review deleted successfully");
    }

    /** The write half of `deleteReview`: `review.deleteOne()`, then the
        recount of its tutor. */
    method DropReview(id: Id)
      requires Valid()
      requires id in reviews
      modifies this`tutors, this`reviews
      ensures Valid()
      ensures reviews == old(reviews) - {id}
      ensures tutors == Rerate(old(tutors), old(reviews)[id].tutorId, Recount(reviews, old(reviews)[id].tutorId))
    {
      var t := reviews[id].tutorId;
      ghost var (t0, s0, a0, b0, r0, n0) := (tutors, students, admins, bookings, reviews, nextId);
      assert Consistent(t0, s0, a0, b0, r0, n0);
      reviews := reviews - {id};
      tutors := Rerate(tutors, t, Recount(reviews, t));
      UnreviewKeepsConsistent(t0, s0, a0, b0, r0, n0, id, tutors, reviews);
    }

    /** `studentSignup`. A student already holding the email or the
        username gives 400; a draft the schema rejects gives 500; otherwise
        the student is stored under the next id with the hash of the
        password, and the reply carries a "student" token. */
    method StudentSignup(d: StudentDraft, hash: string -> string) returns (r: Reply<Session>)
      requires Valid()
      modifies this`students, this`nextId
      ensures Valid()
      ensures Holders(Accounts(old(students), StudentAccount), d.email, d.username) != {} ==>
        r == Err(400, Text("Username or email already exists"))
      ensures Holders(Accounts(old(students), StudentAccount), d.email, d.username) == {} && StudentFailures(d) != [] ==>
        r == Err(500, SchemaRejected("Student", StudentFailures(d)))
      ensures r.Ok? <==> Holders(Accounts(old(students), StudentAccount), d.email, d.username) == {} && StudentFailures(d) == []
      ensures r.Err? ==> students == old(students) && nextId == old(nextId)
      ensures r.Ok? ==>
        var k := old(nextId);
        && StudentDraftValid(d)
        && students == old(students)[k := NewStudent(d).(password := hash(d.password.value))]
        && nextId == k + 1
        && r == Ok(201, Session(k, d.name.value, d.email.value, None, GenerateToken(k, "student")))
    {
      if Holders(Accounts(students, StudentAccount), d.email, d.username) != {} {
        return Err(400, Text("Username or email already exists"));
      }
      var fails := StudentFailures(d);
      if fails != [] {
        return Err(500, SchemaRejected("Student", fails));
      }
      StudentAccepted(d);
      var k := nextId;
      var s := NewStudent(d).(password := hash(d.password.value));
      assert !Taken(students, s.email, s.username) by {
        forall x | x in students
          ensures students[x].email != s.email && students[x].username != s.username
        {
          assert x !in Holders(Accounts(students, StudentAccount), d.email, d.username);
        }
      }
      ghost var s0 := students;
      SignupKeepsConsistent(tutors, students, admins, bookings, reviews, k, s);
      students := students[k := s];
      nextId := k + 1;
      assert students == s0[k := s];
      r := Ok(201, Session(k, s.name, s.email, None, GenerateToken(k, "student")));
    }
  }
}
