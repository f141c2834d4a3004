/** The booking record and its schema (db/models/BookingsModel.js): the
    `status` and `paymentStatus` enums with their defaults, the required
    fields, and the `transactionId` default. */
module BookingSchema {
  import opened Common

  datatype BookingStatus = Pending | Confirmed | Completed | Cancelled

  datatype PaymentStatus = PaymentPending | Paid | Refunded

  function StatusName(s: BookingStatus): string
  {
    match s
    case Pending => "pending"
    case Confirmed => "confirmed"
    case Completed => "completed"
    case Cancelled => "cancelled"
  }

  /** The `status` enum: exactly the four names are accepted. */
  function ParseStatus(s: string): (r: Option<BookingStatus>)
    ensures r.Some? ==> StatusName(r.value) == s
    ensures r.None? ==> forall b :: StatusName(b) != s
  {
    if s == "pending" then Some(Pending)
    else if s == "confirmed" then Some(Confirmed)
    else if s == "completed" then Some(Completed)
    else if s == "cancelled" then Some(Cancelled)
    else None
  }

  function PaymentName(s: PaymentStatus): string
  {
    match s
    case PaymentPending => "pending"
    case Paid => "paid"
    case Refunded => "refunded"
  }

  /** The `paymentStatus` enum: exactly the three names are accepted. */
  function ParsePayment(s: string): (r: Option<PaymentStatus>)
    ensures r.Some? ==> PaymentName(r.value) == s
    ensures r.None? ==> forall b :: PaymentName(b) != s
  {
    if s == "pending" then Some(PaymentPending)
    else if s == "paid" then Some(Paid)
    else if s == "refunded" then Some(Refunded)
    else None
  }

  /** Every status and payment status reads back as itself, and the
      misspelling "canceled" is not a status. */
  lemma EnumRoundTrips(b: BookingStatus, p: PaymentStatus)
    ensures ParseStatus(StatusName(b)) == Some(b)
    ensures ParsePayment(PaymentName(p)) == Some(p)
    ensures ParseStatus("canceled") == None
  {
  }

  /** A stored booking. `date` is the instant as a number; `subject` and
      `duration`, which the schema requires, are absent on the records the
      booking controller writes, and `startTime`/`endTime` are only present
      on those. `transactionId` `None` is `null`. */
  datatype Booking = Booking(
    studentId: Id,
    tutorId: Id,
    subject: Option<string>,
    date: int,
    duration: Option<real>,
    location: Option<string>,
    startTime: Option<string>,
    endTime: Option<string>,
    status: BookingStatus,
    paymentStatus: PaymentStatus,
    transactionId: Option<string>)

  /** The document given to `Booking.create`, absent fields as `None`. */
  datatype BookingDraft = BookingDraft(
    studentId: Option<Id>,
    tutorId: Option<Id>,
    subject: Option<string>,
    date: Option<int>,
    duration: Option<real>,
    location: Option<string>,
    status: Option<string>,
    paymentStatus: Option<string>,
    transactionId: Option<string>)

  /** Whether the validator of one path rejects the draft: required fields
      present (a required string also non-empty), enum values among the
      names. */
  predicate BookingFails(d: BookingDraft, p: Path)
  {
    match p
    case StudentIdPath => d.studentId.None?
    case TutorIdPath => d.tutorId.None?
    case SubjectPath => !Given(d.subject)
    case DatePath => d.date.None?
    case DurationPath => d.duration.None?
    case StatusPath => d.status.Some? && ParseStatus(d.status.value).None?
    case PaymentStatusPath => d.paymentStatus.Some? && ParsePayment(d.paymentStatus.value).None?
    case _ => false
  }

  const BookingPaths: seq<Path> :=
    [StudentIdPath, TutorIdPath, SubjectPath, DatePath, DurationPath, StatusPath, PaymentStatusPath]

  function BookingFailing(d: BookingDraft, ps: seq<Path>): (r: seq<Path>)
    ensures forall p :: p in r <==> p in ps && BookingFails(d, p)
  {
    if ps == [] then []
    else (if BookingFails(d, ps[0]) then [ps[0]] else []) + BookingFailing(d, ps[1..])
  }

  /** The paths whose validators fail, in schema order. */
  function BookingFailures(d: BookingDraft): (paths: seq<Path>)
    ensures forall p :: p in paths <==> BookingFails(d, p)
  {
    BookingFailing(d, BookingPaths)
  }

  predicate BookingDraftValid(d: BookingDraft)
  {
    && d.studentId.Some? && d.tutorId.Some? && Given(d.subject) && d.date.Some? && d.duration.Some?
    && (d.status.None? || ParseStatus(d.status.value).Some?)
    && (d.paymentStatus.None? || ParsePayment(d.paymentStatus.value).Some?)
  }

  /** A draft is accepted exactly when every field constraint holds;
      `location` and `transactionId` never make it fail. */
  lemma BookingAccepted(d: BookingDraft)
    ensures BookingFailures(d) == [] <==> BookingDraftValid(d)
  {
    var paths := BookingFailures(d);
    assert StudentIdPath in paths <==> BookingFails(d, StudentIdPath);
    assert TutorIdPath in paths <==> BookingFails(d, TutorIdPath);
    assert SubjectPath in paths <==> BookingFails(d, SubjectPath);
    assert DatePath in paths <==> BookingFails(d, DatePath);
    assert DurationPath in paths <==> BookingFails(d, DurationPath);
    assert StatusPath in paths <==> BookingFails(d, StatusPath);
    assert PaymentStatusPath in paths <==> BookingFails(d, PaymentStatusPath);
    if paths != [] {
      assert paths[0] in paths;
    }
  }

  /** The stored booking `Booking.create` makes from a valid draft: status
      and payment status default to pending, `transactionId` to null. */
  function NewBooking(d: BookingDraft): (b: Booking)
    requires BookingDraftValid(d)
    ensures b.status == (if d.status.Some? then ParseStatus(d.status.value).value else Pending)
    ensures b.paymentStatus == (if d.paymentStatus.Some? then ParsePayment(d.paymentStatus.value).value else PaymentPending)
    ensures b.transactionId == d.transactionId && b.location == d.location
    ensures b.studentId == d.studentId.value && b.tutorId == d.tutorId.value && b.date == d.date.value
    ensures b.subject == d.subject && b.duration == d.duration
  {
    Booking(d.studentId.value, d.tutorId.value, d.subject, d.date.value, d.duration, d.location,
            None, None,
            if d.status.Some? then ParseStatus(d.status.value).value else Pending,
            if d.paymentStatus.Some? then ParsePayment(d.paymentStatus.value).value else PaymentPending,
            d.transactionId)
  }

  /** With nothing but the required fields given, the defaults apply. */
  lemma BookingDefaults(student: Id, tutor: Id, subject: string, date: int, duration: real)
    requires subject != ""
    ensures var b := NewBooking(BookingDraft(Some(student), Some(tutor), Some(subject), Some(date), Some(duration), None, None, None, None));
      b.status == Pending && b.paymentStatus == PaymentPending && b.transactionId == None && b.location == None
  {
  }

  /** The document the booking controller hands to `create` names neither
      `subject` nor `duration`, so the schema's required checks reject it
      on those two paths. */
  lemma ControllerRecordRejected(student: Id, tutor: Id, date: int)
    ensures var failures := BookingFailures(BookingDraft(Some(student), Some(tutor), None, Some(date), None, None, Some("pending"), None, None));
      SubjectPath in failures && DurationPath in failures && StudentIdPath !in failures && StatusPath !in failures
  {
  }
}
