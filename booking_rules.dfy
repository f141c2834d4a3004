/** The read-only logic of Controllers/bookingController.js: the admission
    chain of `createBooking` (the store update itself is `Store.Db`), the
    authorization of `getBookingDetails`, the guard of
    `updateBookingStatus`, and the two booking listings. */
module BookingRules {
  import opened Common
  import opened Errors
  import opened Ordering
  import opened TutorSchema
  import opened BookingSchema
  import opened Users

  /** `availability.find(a => a.day === day)`: the first entry for the day. */
  function FindDay(avail: seq<DayAvailability>, day: string): (r: Option<nat>)
    ensures r.Some? ==> r.value < |avail| && avail[r.value].day == day
    ensures r.Some? ==> forall k :: 0 <= k < r.value ==> avail[k].day != day
    ensures r.None? <==> forall k :: 0 <= k < |avail| ==> avail[k].day != day
  {
    if avail == [] then None
    else if avail[0].day == day then Some(0)
    else
      var rest := FindDay(avail[1..], day);
      assert forall k :: 1 <= k < |avail| ==> avail[k] == avail[1..][k - 1];
      if rest.Some? then Some(rest.value + 1) else None
  }

  /** `slots.some(slot => slot.startTime === s && slot.endTime === e)`. */
  function HasExactSlot(slots: seq<Slot>, s: string, e: string): (b: bool)
    ensures b <==> Slot(s, e) in slots
  {
    if slots == [] then false
    else (slots[0].startTime == s && slots[0].endTime == e) || HasExactSlot(slots[1..], s, e)
  }

  /** A slot request inside a wider declared slot is refused: only an exact
      match of both ends passes. */
  lemma WiderSlotIsNotEnough()
    ensures !HasExactSlot([Slot("09:00", "11:00")], "09:00", "10:00")
    ensures HasExactSlot([Slot("08:00", "09:00"), Slot("09:00", "11:00")], "09:00", "11:00")
  {
  }

  /** The statuses the conflict query lists, `'canceled'` spelled as the
      controller spells it. */
  const BlockingNames: seq<string> := ["pending", "confirmed", "canceled"]

  predicate Blocks(s: BookingStatus)
  {
    StatusName(s) in BlockingNames
  }

  /** Because the schema spells the status "cancelled", a cancelled booking
      never blocks, and neither does a completed one: only pending and
      confirmed bookings hold a slot. */
  lemma BlockingStatuses(s: BookingStatus)
    ensures Blocks(s) <==> s == Pending || s == Confirmed
  {
    assert StatusName(Cancelled) != "canceled";
  }

  /** An existing booking that the conflict query finds: same tutor, date,
      start and end, and a blocking status. */
  predicate Conflicts(b: Booking, tutor: Id, date: int, s: string, e: string)
  {
    b.tutorId == tutor && b.date == date && b.startTime == Some(s) && b.endTime == Some(e) && Blocks(b.status)
  }

  predicate SlotTaken(bookings: map<Id, Booking>, tutor: Id, date: int, s: string, e: string)
  {
    exists k :: k in bookings && Conflicts(bookings[k], tutor, date, s, e)
  }

  /** The body of a booking request. `date` is `new Date(date)` as a
      number, `None` for an invalid date; `weekday` is that date's weekday
      in the server's locale. */
  datatype BookingRequest = BookingRequest(
    tutorId: Id,
    date: Option<int>,
    weekday: Weekday,
    startTime: string,
    endTime: string)

  const InvalidDate: Thrown := App(ConflictError("Invalid date format"))
  const TutorNotFound: Thrown := App(NotFoundError("Tutor not found"))
  const Unavailable: Thrown := App(ConflictError("Tutor is unavailable on this day"))
  const InvalidSlot: Thrown := App(ConflictError("Invalid time slot"))
  const AlreadyBooked: Thrown := App(ConflictError("Slot already booked"))

  /** The slots of the first availability entry for the request's day. */
  function DaySlots(t: Tutor, day: Weekday): Option<seq<Slot>>
  {
    var i := FindDay(t.availability, DayName(day));
    if i.Some? then Some(t.availability[i.value].slots) else None
  }

  /** The admission chain of `createBooking`: the first failing check, or
      `None` when the booking may be created. */
  function Admit(tutors: map<Id, Tutor>, bookings: map<Id, Booking>, caller: Option<User>, q: BookingRequest): (r: Option<Thrown>)
    ensures caller.None? ==> r == Some(NullUser)
    ensures caller.Some? && q.date.None? ==> r == Some(InvalidDate)
    ensures caller.Some? && q.date.Some? && q.tutorId !in tutors ==> r == Some(TutorNotFound)
    ensures caller.Some? && q.date.Some? && q.tutorId in tutors ==>
      (r == Some(Unavailable) <==> forall k :: 0 <= k < |tutors[q.tutorId].availability| ==> tutors[q.tutorId].availability[k].day != DayName(q.weekday))
    ensures r == Some(InvalidSlot) <==>
      caller.Some? && q.date.Some? && q.tutorId in tutors && DaySlots(tutors[q.tutorId], q.weekday).Some?
      && Slot(q.startTime, q.endTime) !in DaySlots(tutors[q.tutorId], q.weekday).value
    ensures r == Some(AlreadyBooked) <==>
      caller.Some? && q.date.Some? && q.tutorId in tutors && DaySlots(tutors[q.tutorId], q.weekday).Some?
      && Slot(q.startTime, q.endTime) in DaySlots(tutors[q.tutorId], q.weekday).value
      && SlotTaken(bookings, q.tutorId, q.date.value, q.startTime, q.endTime)
    ensures r.None? <==>
      caller.Some? && q.date.Some? && q.tutorId in tutors && DaySlots(tutors[q.tutorId], q.weekday).Some?
      && Slot(q.startTime, q.endTime) in DaySlots(tutors[q.tutorId], q.weekday).value
      && !SlotTaken(bookings, q.tutorId, q.date.value, q.startTime, q.endTime)
  {
    if caller.None? then Some(NullUser)
    else if q.date.None? then Some(InvalidDate)
    else if q.tutorId !in tutors then Some(TutorNotFound)
    else
      var slots := DaySlots(tutors[q.tutorId], q.weekday);
      if slots.None? then Some(Unavailable)
      else if !HasExactSlot(slots.value, q.startTime, q.endTime) then Some(InvalidSlot)
      else if SlotTaken(bookings, q.tutorId, q.date.value, q.startTime, q.endTime) then Some(AlreadyBooked)
      else None
  }

  /** Only the first entry for a day is consulted: a slot declared in a
      second entry for the same day is refused. */
  lemma FirstEntryOnly(t: Tutor)
    requires t.availability == [DayAvailability("Monday", [Slot("09:00", "10:00")]), DayAvailability("Monday", [Slot("10:00", "11:00")])]
    ensures DaySlots(t, Monday) == Some([Slot("09:00", "10:00")])
    ensures Slot("10:00", "11:00") !in DaySlots(t, Monday).value
  {
  }

  /** The record `createBooking` writes: the controller's own fields, with
      the schema defaults for payment status and transaction id. */
  function BookingRecord(student: Id, q: BookingRequest): (b: Booking)
    requires q.date.Some?
    ensures b.status == Pending && b.paymentStatus == PaymentPending && b.transactionId == None
    ensures b.studentId == student && b.tutorId == q.tutorId && b.date == q.date.value
    ensures b.startTime == Some(q.startTime) && b.endTime == Some(q.endTime)
    ensures b.subject == None && b.duration == None && b.location == None
  {
    Booking(student, q.tutorId, None, q.date.value, None, None, Some(q.startTime), Some(q.endTime), Pending, PaymentPending, None)
  }

  /** `Booking.create(d)`: the schema rejects a draft that fails a
      validator, and otherwise stores the booking with its defaults. */
  function BookingCreate(d: BookingDraft): (r: Reply<Booking>)
    ensures r.Err? <==> !BookingDraftValid(d)
    ensures r.Err? ==> r == Caught(Validation("Booking", BookingFailures(d)))
    ensures r.Ok? ==> r == Ok(201, NewBooking(d))
  {
    BookingAccepted(d);
    var fails := BookingFailures(d);
    if fails != [] then Caught(Validation("Booking", fails)) else Ok(201, NewBooking(d))
  }

  /** The document `createBooking` hands to `Booking.create`: neither
      `subject` nor `duration`, and the slot times, which the schema does
      not declare, left out. */
  function ControllerDraft(student: Id, q: BookingRequest): BookingDraft
  {
    BookingDraft(Some(student), Some(q.tutorId), None, q.date, None, None, Some("pending"), None, None)
  }

  /** `createBooking` as written: the admission chain, then `Booking.create`
      on the controller's document. The create always fails on the two
      required paths the controller never fills, so no request books. */
  function CreateBookingAsWritten(tutors: map<Id, Tutor>, bookings: map<Id, Booking>, caller: Option<User>, q: BookingRequest): (r: Reply<Booking>)
    ensures r.Err?
    ensures Admit(tutors, bookings, caller, q).Some? ==> r == Caught(Admit(tutors, bookings, caller, q).value)
    ensures Admit(tutors, bookings, caller, q).None? ==>
      && r.status == 500 && r.message.SchemaRejected? && r.message.model == "Booking"
      && SubjectPath in r.message.paths && DurationPath in r.message.paths
  {
    var fail := Admit(tutors, bookings, caller, q);
    if fail.Some? then Caught(fail.value)
    else
      ControllerRecordRejected(caller.value.id, q.tutorId, q.date.value);
      BookingCreate(ControllerDraft(caller.value.id, q))
  }

  /** A booking `createBooking` admits blocks the same slot from then on:
      a second identical request fails with 'Slot already booked'. */
  lemma NewBookingBlocks(bookings: map<Id, Booking>, k: Id, student: Id, q: BookingRequest)
    requires q.date.Some?
    ensures SlotTaken(bookings[k := BookingRecord(student, q)], q.tutorId, q.date.value, q.startTime, q.endTime)
  {
    var b' := bookings[k := BookingRecord(student, q)];
    assert k in b' && Conflicts(b'[k], q.tutorId, q.date.value, q.startTime, q.endTime);
  }

  const BookingNotFound: Thrown := App(NotFoundError("Booking not found"))

  /** `getBookingDetails`: the booking, for its student or its tutor. */
  function BookingDetails(bookings: map<Id, Booking>, caller: Option<User>, id: Id): (r: Reply<Booking>)
    ensures id !in bookings ==> r == Caught(BookingNotFound)
    ensures id in bookings && caller.None? ==> r == Caught(NullUser)
    ensures r.Ok? <==> id in bookings && caller.Some? && (caller.value.id == bookings[id].studentId || caller.value.id == bookings[id].tutorId)
    ensures r.Ok? ==> r == Ok(200, bookings[id])
    ensures id in bookings && caller.Some? && caller.value.id != bookings[id].studentId && caller.value.id != bookings[id].tutorId ==>
      r == Err(403, Text("Not authorized to view this booking"))
  {
    if id !in bookings then Caught(BookingNotFound)
    else if caller.None? then Caught(NullUser)
    else
      var b := bookings[id];
      if caller.value.id == b.studentId || caller.value.id == b.tutorId then Ok(200, b)
      else Caught(App(UnauthorizedError("Not authorized to view this booking")))
  }

  /** `updateBookingStatus`: a guard only. The requested status is checked
      against the caller's side of the booking and never written; the reply
      is the booking as stored. */
  function UpdateBookingStatus(bookings: map<Id, Booking>, caller: Option<User>, id: Id, status: Option<string>): (r: Reply<Booking>)
    ensures id !in bookings ==> r == Caught(BookingNotFound)
    ensures id in bookings && caller.None? ==> r == Caught(NullUser)
    ensures r.Ok? ==> r == Ok(200, bookings[id])
    ensures id in bookings && caller.Some? ==>
      var b := bookings[id];
      var isStudent := caller.value.id == b.studentId;
      var isTutor := caller.value.id == b.tutorId;
      && (!isStudent && !isTutor ==> r == Err(403, Text("Not authorized")))
      && (isStudent && status != Some("canceled") ==> r == Err(403, Text("Students can only cancel bookings")))
      && (!isStudent && isTutor && status != Some("confirmed") && status != Some("canceled") ==> r == Err(403, Text("Invalid action")))
      && (r.Ok? <==> (isStudent && status == Some("canceled")) || (!isStudent && isTutor && (status == Some("confirmed") || status == Some("canceled"))))
  {
    if id !in bookings then Caught(BookingNotFound)
    else if caller.None? then Caught(NullUser)
    else
      var b := bookings[id];
      var isStudent := caller.value.id == b.studentId;
      var isTutor := caller.value.id == b.tutorId;
      if !isStudent && !isTutor then Caught(App(UnauthorizedError("Not authorized")))
      else if isStudent && !(status.Some? && status.value in ["canceled"]) then Caught(App(UnauthorizedError("Students can only cancel bookings")))
      else if isTutor && !(status.Some? && status.value in ["confirmed", "canceled"]) then Caught(App(UnauthorizedError("Invalid action")))
      else Ok(200, b)
  }

  /** A caller who is both the student and the tutor of a booking may only
      send 'canceled'; and 'cancelled', the schema's own spelling, is refused
      to everyone. */
  lemma StatusGuardCorners(bookings: map<Id, Booking>, u: User, id: Id)
    requires id in bookings
    ensures u.id == bookings[id].studentId && u.id == bookings[id].tutorId ==>
      (UpdateBookingStatus(bookings, Some(u), id, Some("confirmed")).Err? && UpdateBookingStatus(bookings, Some(u), id, Some("canceled")).Ok?)
    ensures UpdateBookingStatus(bookings, Some(u), id, Some("cancelled")).Err?
  {
  }

  /** Sort key `date` of a listing. */
  function DateKey(bookings: map<Id, Booking>): Id -> real
  {
    x => if x in bookings then bookings[x].date as real else 0.0
  }

  /** `Booking.find({studentId}).sort({date: -1})`. */
  function StudentBookings(bookings: map<Id, Booking>, caller: Option<User>): (r: Reply<seq<Id>>)
    ensures caller.None? ==> r == Err(500, MessageOf(NullUser))
    ensures r.Ok? <==> caller.Some?
    ensures r.Ok? ==> r.status == 200 && SortedDesc(r.value, DateKey(bookings))
    ensures r.Ok? ==> forall x :: x in r.value <==> x in bookings && bookings[x].studentId == caller.value.id
    ensures r.Ok? ==> forall x :: x in r.value ==> multiset(r.value)[x] == 1
  {
    if caller.None? then Err(500, MessageOf(NullUser))
    else
      var ids := Select(NaturalOrder(bookings.Keys), x => x in bookings && bookings[x].studentId == caller.value.id);
      var sorted := SortDesc(ids, DateKey(bookings));
      IncreasingCountsOne(ids);
      Ok(200, sorted)
  }

  /** `Booking.find({tutorId}).sort({date: -1})`. */
  function TutorBookings(bookings: map<Id, Booking>, caller: Option<User>): (r: Reply<seq<Id>>)
    ensures caller.None? ==> r == Err(500, MessageOf(NullUser))
    ensures r.Ok? <==> caller.Some?
    ensures r.Ok? ==> r.status == 200 && SortedDesc(r.value, DateKey(bookings))
    ensures r.Ok? ==> forall x :: x in r.value <==> x in bookings && bookings[x].tutorId == caller.value.id
    ensures r.Ok? ==> forall x :: x in r.value ==> multiset(r.value)[x] == 1
  {
    if caller.None? then Err(500, MessageOf(NullUser))
    else
      var ids := Select(NaturalOrder(bookings.Keys), x => x in bookings && bookings[x].tutorId == caller.value.id);
      var sorted := SortDesc(ids, DateKey(bookings));
      IncreasingCountsOne(ids);
      Ok(200, sorted)
  }
}
