/** The review record and its schema (db/models/ReviewModel.js): both ids
    and the rating are required, the rating lies between 1 and 5, and the
    comment is optional. */
module ReviewSchema {
  import opened Common

  datatype Review = Review(studentId: Id, tutorId: Id, rating: int, comment: Option<string>)

  datatype ReviewDraft = ReviewDraft(
    studentId: Option<Id>,
    tutorId: Option<Id>,
    rating: Option<int>,
    comment: Option<string>)

  predicate ReviewFails(d: ReviewDraft, p: Path)
  {
    match p
    case StudentIdPath => d.studentId.None?
    case TutorIdPath => d.tutorId.None?
    case RatingPath => d.rating.None? || d.rating.value < 1 || d.rating.value > 5
    case _ => false
  }

  /** The paths whose validators fail, in schema order. */
  function ReviewFailures(d: ReviewDraft): (paths: seq<Path>)
    ensures forall p :: p in paths <==> ReviewFails(d, p)
  {
    (if ReviewFails(d, StudentIdPath) then [StudentIdPath] else [])
    + (if ReviewFails(d, TutorIdPath) then [TutorIdPath] else [])
    + (if ReviewFails(d, RatingPath) then [RatingPath] else [])
  }

  predicate ReviewDraftValid(d: ReviewDraft)
  {
    d.studentId.Some? && d.tutorId.Some? && d.rating.Some? && 1 <= d.rating.value <= 5
  }

  /** A draft is accepted exactly when both ids are present and the rating
      is present and within 1..5; the comment never matters. */
  lemma ReviewAccepted(d: ReviewDraft, comment: Option<string>)
    ensures ReviewFailures(d) == [] <==> ReviewDraftValid(d)
    ensures ReviewFailures(d.(comment := comment)) == ReviewFailures(d)
  {
    var paths := ReviewFailures(d);
    if paths != [] {
      assert paths[0] in paths;
    }
  }

  function NewReview(d: ReviewDraft): (r: Review)
    requires ReviewDraftValid(d)
    ensures 1 <= r.rating <= 5
    ensures r.studentId == d.studentId.value && r.tutorId == d.tutorId.value
    ensures r.rating == d.rating.value && r.comment == d.comment
  {
    Review(d.studentId.value, d.tutorId.value, d.rating.value, d.comment)
  }

  /** The rating rule for every draft: the rating path fails exactly when
      the rating is missing or outside 1..5, and with both ids present it is
      the only path that can fail. */
  lemma RatingBounds(d: ReviewDraft)
    ensures RatingPath in ReviewFailures(d) <==> d.rating.None? || d.rating.value < 1 || d.rating.value > 5
    ensures d.studentId.Some? && d.tutorId.Some? ==>
      ReviewFailures(d) == (if d.rating.Some? && 1 <= d.rating.value <= 5 then [] else [RatingPath])
  {
  }
}
