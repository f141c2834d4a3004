# FindaTutor core, modelled in Dafny

FindaTutor is the Express/Mongoose backend of a tutoring marketplace.
Students book tutors' declared time slots and review tutors. Tutors publish
profiles and availability. An admin verifies tutors. This project models the
part of that backend that holds logic once the database is replaced by
in-memory maps:

- the controllers under `Controllers/`;
- the schemas under `db/models/`;
- the error classes in `utils/error.js`;
- the two middlewares under `middleware/`.

It then proves properties of the model.

The modules follow the program's structure:

| module | models |
|---|---|
| `Common` | ids, options, JSON bodies with JavaScript truthiness, handler replies, `parseInt(x) \|\| d`, `split` and `join` |
| `Errors` | `utils/error.js`, and the `catch` blocks that turn a throw into `status(error.statusCode \|\| 500)` |
| `ErrorMiddleware` | `errorHandler`: a method with the handler's sequence of overriding `if`s, proved against a priority reading |
| `AuthMiddleware` | `protect` (the `Authorization` header token, Student→Tutor→Admin lookup) and `isAdmin` |
| `AuthRules` | `generateToken`, both logins, both sign-up guards, `logout` |
| `TutorSchema`, `StudentSchema`, `BookingSchema`, `ReviewSchema` | the records, their validators as predicates, the list of failing paths, the creation defaults |
| `Ordering` | the orders the database hands documents back in: natural order, filtering, `sort({key: -1})`, `skip`/`limit` |
| `Ratings`, `ReviewRules` | the `{average, total}` recount over a tutor's reviews, and `getTutorReviews` |
| `BookingRules` | the admission chain of `createBooking`, `getBookingDetails`, `updateBookingStatus`, the two booking listings |
| `TutorQueries` | the tutor search filter and its results, recommended tutors, public and own profile, the profile-update whitelist |
| `AdminQueries` | the admin tutor listing with its pagination |
| `StudentProfile` | the student's own profile and its password-refusing update |
| `StoreInvariants`, `Store` | the database as class `Db` with the handlers that write to it as methods, and the invariant every one of them keeps |

## Modelling choices

- **Ids and natural order.** The database is five maps from `Id` (a `nat`)
  to records, plus one shared id counter. Ids are handed out in increasing
  order. So a collection's natural order, and `createdAt` order, is
  ascending id.
- **The store invariant.** `Db.Valid()` states what every handler keeps
  true:
  - all ids lie below the counter;
  - the three account collections are disjoint;
  - each student has at most one review per tutor;
  - every stored rating is between 1 and 5;
  - every tutor's stored `rating` equals the recount of its reviews;
  - no two students share a username or an email.
- **Replies.** A handler's reply is `Reply<T>`: `Ok(status, value)` or
  `Err(status, message)`.
  - Errors are values of `Errors.Thrown`, turned into replies exactly as
    the catch blocks do.
  - A Mongoose validation failure is described by its model and failing
    paths (`SchemaRejected`) rather than by the library's text.
- **The caller.** `req.user` is an `Option<User>`. `None` is the `null` user
  that `protect` lets through for a valid token whose id is in no
  collection; every handler then throws reading `_id`, which gives 500.
- **`role` is never set.** No schema declares a `role` field, so
  `req.user.role` is always undefined. The admin exception of
  `deleteReview` therefore never applies.
- **Broken imports are modelled as written, as the runtime error they
  raise:**
  - `new ConflictError` in the review and auth controllers, which never
    import it, raises a ReferenceError → 500;
  - `new ForbiddenError`, which `utils/error.js` does not export, raises a
    TypeError → 500.
- **`tutorSignup` never creates a tutor.** The document it creates has no
  `price` and empty `subjects` and `locations`, all of which the schema
  requires. So every sign-up that passes the guards fails with 500
  (`AuthRules.TutorSignupAlwaysRejected`). Tutors enter the store only
  through `Db`'s constructor.
- **Missing body fields in queries.** Mongoose drops a filter key whose
  value is `undefined`. So in `{ $or: [{ email }, { username }] }` a
  missing field leaves the clause `{}`, which every account matches: a
  sign-up without one of the two is refused as soon as the collection has
  an account, and a login without one is tried against the oldest account
  (`AuthRules.OneFieldMatchesAll`). Likewise `Review.findOne({ studentId,
  tutorId })` without a `tutorId` finds any review by the caller.
- **Logins.** A login with no password makes the password comparison
  throw (500).
- **String lengths.** Dafny characters are Unicode scalar values, while a
  JavaScript `length` counts UTF-16 code units. The password minimum is
  stated on `Common.Utf16Length`, so a password of three characters outside
  the Basic Multilingual Plane is accepted, as in the source.
- **Parameters.** The password hash (`hash`), the password comparison
  (`matches`) and `jwt.verify` (`verify`) are parameters. A token is the
  payload it signs.
- **Dates.** The booking date arrives already parsed (`None` for an invalid
  date), together with its weekday.
- **Numbers.** Averages and prices are exact `real`s. Query numbers arrive
  parsed: `Option<int>` for `parseInt`, where `None` is NaN or absent, and
  `NumParam` for `parseFloat`.

## Model

| member | source | states |
|---|---|---|
| Common.IntOr | Controllers/adminController.js:7-8 | `parseInt(x) \|\| d` is the parsed value when it is a non-zero number, and the fallback otherwise |
| Common.Utf16Length | db/models/StudentModel.js:14-19 | a string's `length` counts UTF-16 code units: between one and two per character, exactly one each when all lie in the Basic Multilingual Plane and two each when none does |
| Common.Split | middleware/authMiddleware.js:8 | `split(' ')`: at least one piece, no piece holds the separator, and joining the pieces with it gives back the string |
| Errors.Caught | Controllers/bookingController.js:57-59 | a caught error replies with its class's `statusCode` and its message when it is an application error, and 500 otherwise |
| Errors.ClassConstants | utils/error.js:1-23 | the three classes are named as themselves with codes 404, 409 and 403, and keep the constructor message unchanged |
| Errors.CaughtAppError | utils/error.js:1-25 | a caught application error replies with its class code (one of 403, 404, 409) and its own message |
| ErrorMiddleware.HandleError | middleware/errorMiddleware.js:8-68 | the handler's sequence of overriding `if`s yields the priority reading, where the last rule that applies wins; `success` is always false |
| ErrorMiddleware.PlainErrors | middleware/errorMiddleware.js:10-24 | with no name or code rule, the message defaults to 'Internal Server Error' and the status comes from the class, else `statusCode`, else 500 |
| ErrorMiddleware.NameRulesOverrideClass | middleware/errorMiddleware.js:16-54 | JWT failures give 401 and CastError gives 404 'Resource not found', whatever the class; the JWT messages are fixed |
| ErrorMiddleware.ValidationAndDuplicateKey | middleware/errorMiddleware.js:27-38 | ValidationError gives 400 with the field messages joined by '. ', unless code 11000 turns it into 409 'Duplicate field value entered' |
| ErrorMiddleware.UnauthorizedClassIs401 | middleware/errorMiddleware.js:16-24 | illustration of `PlainErrors` on one input: an UnauthorizedError carrying 403 is answered with 401 |
| ErrorMiddleware.JoinFieldMessages | middleware/errorMiddleware.js:29-31 | the join of one message is that message, and each further message is appended after the separator |
| AuthMiddleware.BearerToken | middleware/authMiddleware.js:8 | the token is piece [1] of the header split on spaces, and never holds a space |
| AuthMiddleware.TokenAfterFirstSpace | middleware/authMiddleware.js:8 | for `scheme token rest` the token is the text between the first space and the next, whatever the scheme word |
| AuthMiddleware.NoSpaceNoToken | middleware/authMiddleware.js:8-9 | a header without a space carries no token |
| AuthMiddleware.Resolve | middleware/authMiddleware.js:13 | the user is the student with the id if any, else the tutor, else the admin, else null |
| AuthMiddleware.Protect | middleware/authMiddleware.js:7-18 | no or empty token gives 401 'Not authorized'; a failed verification gives 401 'Invalid token'; otherwise the handler runs with the resolved user, never throwing |
| AuthMiddleware.UnknownIdPassesAsNull | middleware/authMiddleware.js:13-14 | a valid token whose id is in no collection passes with a null user |
| AuthMiddleware.ResolveUnique | middleware/authMiddleware.js:13 | with disjoint collections, a tutor or admin id resolves to that record |
| AuthMiddleware.IsAdmin | middleware/authMiddleware.js:21-25 | only a caller whose id is an admin record passes; others get 403 'Admin access required'; a null user throws |
| AuthMiddleware.AdminGateAfterProtect | middleware/authMiddleware.js:21-25 | behind `protect`, with disjoint collections, `isAdmin` passes exactly admin records |
| AuthRules.GenerateToken | Controllers/authController.js:8-12 | the token carries the id and role and lasts "30d" |
| AuthRules.Holders | Controllers/authController.js:97-99 | the `$or` query matches exactly the accounts holding the given email or the given username; a field missing from the body is a dropped key, whose empty clause every account matches |
| AuthRules.OneFieldMatchesAll | Controllers/authController.js:94-109 | a login body without its email or its username matches every account, so it can only sign in to the oldest account of the collection |
| AuthRules.FirstHolder | Controllers/authController.js:97-99 | `findOne` gives the oldest holder, and nothing exactly when there is none |
| AuthRules.Authenticate | Controllers/authController.js:97-109 | no holder, or a wrong password for the first holder, gives 401 'Invalid credentials'; a missing password gives 500; success is exactly a matching password for the first holder |
| AuthRules.SignInIsToOldestHolder | Controllers/authController.js:97-109 | a successful sign-in is to the oldest account holding the email or username, with that account's password |
| AuthRules.ShadowedAccount | Controllers/authController.js:97-109 | a newer account sharing a field with an older one can never be signed in to through that field |
| AuthRules.StudentLogin | Controllers/authController.js:92-123 | fails exactly when authentication fails, with its reply; otherwise replies with the student's id, name, email and a "student" token |
| AuthRules.TutorLogin | Controllers/authController.js:126-158 | as for students, adding `isVerified` and using a "tutor" token; unverified tutors can sign in |
| AuthRules.SignupDraft | Controllers/authController.js:63-71 | the created document has no price, no subjects or locations, `isVerified` false, and the body's other fields |
| AuthRules.TutorSignup | Controllers/authController.js:49-90 | always an error: 400 for missing or empty availability, 500 (ReferenceError) for a taken username or email, 500 schema rejection otherwise |
| AuthRules.TutorSignupAlwaysRejected | Controllers/authController.js:63-71 | the sign-up document always fails on price, subjects and locations, so it is never valid |
| AuthRules.Logout | Controllers/authController.js:161-163 | always 200 'Logged out successfully' |
| TutorSchema.DayNames | db/models/TutorModel.js:60-63 | the day enum accepts exactly the seven English weekday names, each reading back as itself |
| TutorSchema.TimeOf | db/models/TutorModel.js:66-75 | a time matching the pattern denotes an hour below 24 and a minute below 60 |
| TutorSchema.TimesRoundTrip | db/models/TutorModel.js:66-75 | the `HH:MM` pattern accepts exactly the zero-padded times 00:00–23:59: formatting then reading, and reading then formatting, give back the input |
| TutorSchema.MatchesEmail | db/models/TutorModel.js:13 | the one-pass matcher agrees with `^\S+@\S+\.\S+$` read declaratively |
| TutorSchema.TutorFailures | db/models/TutorModel.js:4-83 | a path is listed exactly when its validator rejects the draft |
| TutorSchema.TutorAccepted | db/models/TutorModel.js:4-83 | a draft is accepted exactly when every field constraint holds (required fields, username pattern, password of at least 6 UTF-16 code units, non-empty subjects, locations and availability with valid entries) |
| TutorSchema.NewTutor | db/models/TutorModel.js:91-104 | a created tutor is unrated `{0, 0}`, has no bookings or reviews, and `isVerified` false unless set |
| StudentSchema.StudentFailures | db/models/StudentModel.js:4-24 | a path is listed exactly when its validator rejects the draft |
| StudentSchema.StudentAccepted | db/models/StudentModel.js:4-24 | a draft is accepted exactly when name, username, email and a password of at least 6 UTF-16 code units are given |
| StudentSchema.NewStudent | db/models/StudentModel.js:25-32 | a created student has no bookings and phone "1234567890" unless one is given |
| BookingSchema.ParseStatus | db/models/BookingsModel.js:27-31 | the status enum accepts exactly the four names |
| BookingSchema.ParsePayment | db/models/BookingsModel.js:32-36 | the payment-status enum accepts exactly the three names |
| BookingSchema.EnumRoundTrips | db/models/BookingsModel.js:27-36 | every status reads back as itself, and "canceled" is not a status |
| BookingSchema.BookingFailures | db/models/BookingsModel.js:3-41 | a path is listed exactly when its validator rejects the draft |
| BookingSchema.BookingAccepted | db/models/BookingsModel.js:3-41 | a draft is accepted exactly when both ids, subject, date and duration are given and the enums hold; location never matters |
| BookingSchema.NewBooking | db/models/BookingsModel.js:27-40 | status and payment status default to pending, `transactionId` to null |
| BookingSchema.BookingDefaults | db/models/BookingsModel.js:27-40 | with only the required fields given, the defaults apply and location is absent |
| BookingSchema.ControllerRecordRejected | Controllers/bookingController.js:43-50 | the document `createBooking` creates fails on subject and duration |
| BookingRules.FindDay | Controllers/bookingController.js:21 | `find` gives the first entry for the day, and nothing exactly when no entry has it |
| BookingRules.HasExactSlot | Controllers/bookingController.js:27-29 | `some` holds exactly when the slot with both ends is declared |
| BookingRules.WiderSlotIsNotEnough | Controllers/bookingController.js:27-30 | illustration of `HasExactSlot` on fixed inputs: a request inside a wider declared slot is refused; an exact one passes |
| BookingRules.BlockingStatuses | Controllers/bookingController.js:33-40 | with the 'canceled' spelling, only pending and confirmed bookings block a slot |
| BookingRules.Admit | Controllers/bookingController.js:8-40 | the first failing check in order (null user, invalid date, no tutor, no day entry, no exact slot, slot taken) decides the error; none fails exactly when all pass |
| BookingRules.FirstEntryOnly | Controllers/bookingController.js:21 | illustration of `FindDay` on a fixed input: only the first availability entry for a day is consulted |
| BookingRules.BookingRecord | Controllers/bookingController.js:43-50 | the record is pending and unpaid, holds the caller, tutor, date and slot, and has no subject or duration |
| BookingRules.BookingCreate | Controllers/bookingController.js:43 | `Booking.create` rejects exactly the invalid drafts with their failing paths, and otherwise stores the booking with its defaults |
| BookingRules.CreateBookingAsWritten | Controllers/bookingController.js:6-60 | as written, every request is refused: by the admission chain, or else by the schema with 500 on subject and duration |
| BookingRules.NewBookingBlocks | Controllers/bookingController.js:33-50 | once a booking is stored, an identical request finds its slot taken |
| BookingRules.BookingDetails | Controllers/bookingController.js:63-79 | 404 for an unknown booking; a null caller throws (500); the booking exactly for its student or tutor; 403 'Not authorized to view this booking' for anyone else |
| BookingRules.UpdateBookingStatus | Controllers/bookingController.js:108-131 | a party-only guard: 404 for an unknown booking, a null caller throws (500), a student may only send 'canceled' and a tutor 'confirmed' or 'canceled'; success returns the booking unchanged |
| BookingRules.StatusGuardCorners | Controllers/bookingController.js:116-125 | a caller who is both parties may only cancel, and the schema spelling 'cancelled' is refused to everyone |
| BookingRules.StudentBookings | Controllers/bookingController.js:82-92 | a null caller throws (500) and every other caller gets 200 with exactly its bookings as student, each once, latest date first |
| BookingRules.TutorBookings | Controllers/bookingController.js:95-105 | a null caller throws (500) and every other caller gets 200 with exactly its bookings as tutor, each once, latest date first |
| ReviewSchema.ReviewFailures | db/models/ReviewModel.js:3-21 | a path is listed exactly when its validator rejects the draft |
| ReviewSchema.ReviewAccepted | db/models/ReviewModel.js:3-21 | a draft is accepted exactly when both ids and a rating in 1..5 are given; the comment never matters |
| ReviewSchema.NewReview | db/models/ReviewModel.js:3-21 | a created review keeps the draft's ids, rating and comment, with the rating in 1..5 |
| ReviewSchema.RatingBounds | db/models/ReviewModel.js:14-19 | for every draft, the rating path fails exactly when the rating is missing or outside 1..5, and with both ids given it is the only path that can fail |
| Ratings.Aggregate | Controllers/reviewController.js:39-48 | the recount's total is the number of ratings, and with none it is `{0, 0}` |
| Ratings.AggregateMean | Controllers/reviewController.js:41 | with at least one rating, the average times the total is the sum of the ratings |
| Ratings.AverageInRange | Controllers/reviewController.js:41 | ratings in 1..5 have an average in [1, 5] |
| Ratings.Examples | Controllers/reviewController.js:87-91 | illustration of `Aggregate` on fixed inputs: ratings 4, 5, 3 give 4 over 3; 4, 5 give 4.5 over 2; none give 0 over 0 |
| ReviewRules.ReviewsOf | Controllers/reviewController.js:39 | `Review.find({tutorId})` lists exactly that tutor's reviews, in natural order |
| ReviewRules.RecountMeaning | Controllers/reviewController.js:87-91 | the recount counts exactly the tutor's reviews; it is zero exactly when there are none, and then `{0, 0}` |
| ReviewRules.RecountInRange | Controllers/reviewController.js:39-41 | with stored ratings in 1..5, a reviewed tutor's average lies in [1, 5] |
| ReviewRules.ReviewsAfterInsert | Controllers/reviewController.js:31-39 | a new review joins the end of its tutor's list and no other tutor's list changes |
| ReviewRules.RecountAfterInsert | Controllers/reviewController.js:39-48 | the new rating is appended to its tutor's recount input; other tutors' recounts are unchanged |
| ReviewRules.ReviewsAfterRemove | Controllers/reviewController.js:84-87 | a deleted review leaves its tutor's list, the others keeping their order |
| ReviewRules.RecountAfterRemove | Controllers/reviewController.js:84-98 | after a delete, other tutors' recounts are unchanged |
| ReviewRules.TutorReviews | Controllers/reviewController.js:57-67 | exactly the tutor's reviews, newest first |
| Ordering.SortDesc | Controllers/tutorController.js:24-26 | `sort({key: -1})` gives the same ids, each as often, in descending key order |
| Ordering.Window | Controllers/adminController.js:18-21 | `skip(s).limit(l)` gives the at most `l` ids from position `s` on |
| AdminQueries.Ceil | Controllers/adminController.js:31 | `Math.ceil` is the least integer not below its argument |
| AdminQueries.PagesCoverTotal | Controllers/adminController.js:31 | `ceil(total / limit)` pages of `limit` hold `total` items with a non-empty last page, and there are none exactly when `total` is 0 |
| AdminQueries.VerifiedFilter | Controllers/adminController.js:12-15 | the filter is present exactly when the parameter is, and true exactly for 'true' |
| AdminQueries.Listed | Controllers/adminController.js:18 | exactly the tutors the filter admits, in natural order |
| AdminQueries.PageOf | Controllers/adminController.js:9-33 | a negative skip is refused (500); otherwise the page holds `count` = number of tutors returned ≤ `\|limit\|`, the total, the page and `ceil(total / limit)` pages, and the data is the window at `skip` |
| AdminQueries.AllTutors | Controllers/adminController.js:4-37 | `getAllTutors` with defaults page 1 and limit 10: the page of the filtered tutors at `skip = (page - 1) * limit` |
| AdminQueries.DefaultPaging | Controllers/adminController.js:7-8 | with no parameters, the first ten tutors, or all of them when there are fewer |
| AdminQueries.NonPositivePage | Controllers/adminController.js:7-9 | a negative page is refused and page 0 falls back to page 1 |
| TutorQueries.Hide | Controllers/tutorController.js:25 | the profile is the record without its password, every other field kept |
| TutorQueries.FilterFor | Controllers/tutorController.js:9-22 | each filter key is present exactly when its parameter is given, `$gte` only from minPrice and `$lte` only from maxPrice, and a price key is never empty |
| TutorQueries.BuildSearchFilter | Controllers/tutorController.js:10-22 | the step-by-step construction yields that filter |
| TutorQueries.FilterMeaning | Controllers/tutorController.js:13-24 | a tutor matches exactly when it meets every given parameter |
| TutorQueries.SearchTutors | Controllers/tutorController.js:24-26 | exactly the matching tutors, each once, best average first |
| TutorQueries.Take | Controllers/tutorController.js:41 | `limit(n)` keeps the first `\|n\|` ids, or all when there are fewer; `limit(0)` is no limit |
| TutorQueries.VerifiedByRating | Controllers/tutorController.js:38-40 | exactly the verified tutors, each once, best average first |
| TutorQueries.Recommended | Controllers/tutorController.js:35-47 | at most `limit` (default 10) tutors, all verified, each once, best average first |
| TutorQueries.RecommendedIsTop | Controllers/tutorController.js:38-41 | every verified tutor left out is rated no higher than every tutor listed |
| TutorQueries.RecommendedShort | Controllers/tutorController.js:38-41 | a list shorter than the limit leaves no verified tutor out |
| TutorQueries.RecommendedDefault | Controllers/tutorController.js:37 | an absent, zero or unparsable limit lists exactly what a limit of 10 lists; any other limit `n` lists at most `\|n\|` tutors |
| TutorQueries.FlattenRating | Controllers/tutorController.js:66 | `rating?.average \|\| 0` is always the average itself |
| TutorQueries.WithFlatRating | Controllers/tutorController.js:64-67 | every profile field kept, and the `{average, total}` object replaced by the average |
| TutorQueries.TutorById | Controllers/tutorController.js:50-73 | 404 'Tutor not found' for an unknown id; otherwise the profile with the rating replaced by its average |
| TutorQueries.TutorProfileOf | Controllers/tutorController.js:76-91 | the caller's own tutor record without its password; 404 when the caller is not a tutor; a null caller throws |
| TutorQueries.NormalizePath | Controllers/tutorController.js:98 | every `\` becomes `/`, no other character changes, and none is left |
| TutorQueries.NormalizeIdempotent | Controllers/tutorController.js:98 | normalising twice is normalising once |
| TutorQueries.ProfileUpdate | Controllers/tutorController.js:96-122 | the update holds exactly the whitelisted keys present in the body (or uploaded), with the body's values and the normalised upload path |
| TutorQueries.ProtectedFields | Controllers/tutorController.js:104-122 | password, rating, isVerified, bookings, reviews and username never reach the update |
| StudentProfile.HidePassword | Controllers/studentController.js:8 | the view is the student without the password, every other field kept |
| StudentProfile.ProfileOf | Controllers/studentController.js:4-19 | a null caller gives 500; an id that is not a student's gives 404 'Student not found'; otherwise the student without password |
| StudentProfile.UpdateDocument | Controllers/studentController.js:24 | the update is the body without `password`, every other key and value kept |
| StudentProfile.UpdateProfile | Controllers/studentController.js:22-46 | a truthy password gives 400 before anything else; code 11000 gives 400 'Email or username already exists'; success exactly when the write succeeds |
| StudentProfile.FalsyPasswordIsDropped | Controllers/studentController.js:24-29 | a falsy password neither blocks the update nor is part of it |
| StoreInvariants.Pull | Controllers/bookingController.js:140-141 | `$pull` removes every occurrence of the id and keeps the rest |
| StoreInvariants.PushedOnce | Controllers/bookingController.js:53-54 | a new booking id occurs exactly once in a list after the push |
| StoreInvariants.InsertKeepsRatings | Controllers/reviewController.js:39-48 | after a new review, other tutors' stored ratings stay current, and its tutor's recount gains exactly its rating and one review |
| StoreInvariants.RemoveKeepsRatings | Controllers/reviewController.js:87-98 | after a delete, other tutors' stored ratings stay current, and its tutor's recount has one review fewer |
| StoreInvariants.RecountIsStable | Controllers/reviewController.js:39-48 | recounting with no change in between rewrites the stored rating unchanged |
| StoreInvariants.BookingKeepsConsistent | Controllers/bookingController.js:43-50 | storing a booking under the next id keeps the store invariant |
| StoreInvariants.PushKeepsConsistent | Controllers/bookingController.js:53-54 | pushing a handed-out id onto a tutor and a student keeps the store invariant |
| StoreInvariants.VerifyKeepsConsistent | Controllers/adminController.js:45-49 | setting `isVerified` keeps the store invariant |
| StoreInvariants.UnbookKeepsConsistent | Controllers/bookingController.js:136-141 | deleting a booking and pulling its id keeps the store invariant |
| StoreInvariants.OnePairAfterInsert | Controllers/reviewController.js:25-36 | the duplicate check keeps at most one review per student and tutor |
| StoreInvariants.ReviewKeepsConsistent | Controllers/reviewController.js:25-48 | a checked review, stored and recounted, keeps the store invariant |
| StoreInvariants.UnreviewKeepsConsistent | Controllers/reviewController.js:84-98 | deleting a review and recounting keeps the store invariant |
| StoreInvariants.SignupKeepsConsistent | Controllers/authController.js:20-32 | adding a student with free handles keeps the store invariant |
| StoreInvariants.InsertRerate | Controllers/reviewController.js:39-48 | the recounted tutor's rating is the aggregate of its earlier ratings followed by the new one, over one more review |
| StoreInvariants.RemoveRerate | Controllers/reviewController.js:87-98 | the recounted tutor of a deleted review has one review fewer |
| Store.Db.VerifyTutor | Controllers/adminController.js:40-59 | sets `isVerified` and nothing else, replies with the tutor without password; 404 and no change for an unknown id |
| Store.Db.StoreBooking | Controllers/bookingController.js:43-50 | the booking is stored under the next id and the counter advances |
| Store.Db.PushBooking | Controllers/bookingController.js:53-54 | the id is appended to the tutor's and, when there is one, the student's `bookings` |
| Store.Db.CreateBooking | Controllers/bookingController.js:6-60 | a failed check replies with its error and writes nothing; otherwise the pending record is stored, its id appended exactly once to the tutor's and the student's `bookings`, and nothing else changes |
| Store.Db.DeleteBooking | Controllers/bookingController.js:134-147 | removes the booking and pulls its id from exactly its student and tutor; 404 and no change for an unknown id; the caller is not consulted |
| Store.Db.StoreReview | Controllers/reviewController.js:31-48 | stores the review under the next id and rewrites its tutor's rating to the recount |
| Store.Db.CreateReview | Controllers/reviewController.js:7-54 | null caller, duplicate review (ReferenceError; without a `tutorId` in the body, any review by the caller counts) or schema rejection give 500 and change nothing; otherwise the review is stored and its tutor's total goes up by one with the new rating appended and an average in [1, 5] |
| Store.Db.DeleteReview | Controllers/reviewController.js:70-104 | 404 for an unknown review; only the author may delete (the admin branch never applies); its tutor is recounted with one review fewer; failures change nothing |
| Store.Db.DropReview | Controllers/reviewController.js:84-98 | removes the review and rewrites its tutor's rating to the recount |
| Store.Db.StudentSignup | Controllers/authController.js:15-46 | a taken email or username gives 400 (a field missing from the body matches every student, so then any stored student counts) and a schema rejection 500, both with no change; otherwise the student is stored with the hashed password and the reply carries a "student" token |

## Findings

| source | as written | input that shows it | evidently intended | confidence | as-written member | corrected member |
|---|---|---|---|---|---|---|
| Controllers/bookingController.js:43-50 | `Booking.create` gets a document with no `subject` and no `duration`, which the booking schema requires, so the create throws a ValidationError and the handler replies 500 | any request that passes every admission check, e.g. an exact declared slot on a free date | the booking is created as pending and its id pushed onto the tutor and the student | not executed | BookingRules.CreateBookingAsWritten | Store.Db.CreateBooking |

## Left out

- Store.Db.CreateBooking: stores the controller's record without the schema check `Booking.create` applies, as the finding above explains.
- Payments (Controllers/paymentControllers.js): a Stripe client and webhook, outside this model.
- Route wiring and startup (Routes/, server.js), including how uploaded files are named. `errorHandler` is never mounted, so `ErrorMiddleware.HandleError` models the handler on its own; the replies of the handlers come from their own `catch` blocks.
- Hashing and tokens: bcrypt and `jwt.sign`/`jwt.verify` are parameters (`hash`, `matches`, `verify`). Token expiry is not modelled beyond the "30d" the token carries.
- Dates: `new Date(date)` and the locale weekday are inputs of the booking request, because they depend on the server's time zone.
- Numbers: `parseInt` and `parseFloat` results arrive as parsed values. JavaScript floating point is replaced by exact reals, so rounding in averages is not modelled.
- Database details: `populate`, `select` beyond hiding the password, `lean`, timestamps (creation order is id order) and CastErrors for malformed ids are not modelled.
- Strict mode: Mongoose drops fields a schema does not declare, such as a booking's `startTime` and `endTime`; the model keeps them as the controller passes them.
- Database failures other than those a handler's own code raises, such as a lost connection, are not modelled.
- Profile writes: the `findByIdAndUpdate` of `updateTutorProfile` and `updateStudentProfile` is not applied to `Store.Db`. Only the update document and the reply are modelled, with the student write's outcome as a parameter. The reply of `updateTutorProfile` and its empty `catch` are not modelled.
- Ties in `sort({key: -1})`: the database's order among equal keys is unspecified, and the contracts leave it open.
- Concurrency: the model is sequential, so the race between the conflict check and the insert, and between a review write and the rating write, is not modelled.
- Admin accounts: `db/models/AdminModel.js` appears only as the stored `Admin` record. The model has no admin sign-in, because the source has none.
- ErrorMiddleware.HandleError: the development branch (`NODE_ENV === 'development'`) is not modelled. In that mode the handler also logs `err.stack`, copies it into the record, and adds that record to the reply as its `error` field. `ErrorResponse` has no field for it; the model is the reply in any other mode.
- middleware/errorMiddleware.js cannot load as written. It imports `ConflictError` and `ForbiddenError` and then declares classes with the same names, which is a redeclaration error. It also uses ES `import`/`export` in a CommonJS project. `ErrorMiddleware.HandleError` models the handler's body as if the module loaded, with its four imported classes.
- AuthRules.TutorSignup: the reply text of the schema rejection is abstracted to the model name and failing paths, as for every validation failure.
