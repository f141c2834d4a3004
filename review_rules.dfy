/** The rating recount of Controllers/reviewController.js: after a review
    is created or deleted, the tutor's reviews are read back in the
    collection's natural order and folded into `{average, total}`; and the
    `getTutorReviews` listing. */
module ReviewRules {
  import opened Common
  import opened Ordering
  import opened Ratings
  import opened ReviewSchema

  /** `Review.find({tutorId: t})`: that tutor's review ids, in natural order. */
  function ReviewsOf(reviews: map<Id, Review>, t: Id): (r: seq<Id>)
    ensures Increasing(r)
    ensures forall x :: x in r <==> x in reviews && reviews[x].tutorId == t
  {
    Select(NaturalOrder(reviews.Keys), x => x in reviews && reviews[x].tutorId == t)
  }

  /** The `rating` of each listed review. */
  function RatingList(reviews: map<Id, Review>, ids: seq<Id>): (r: seq<int>)
    requires forall x :: x in ids ==> x in reviews
    ensures |r| == |ids|
    ensures forall i :: 0 <= i < |ids| ==> r[i] == reviews[ids[i]].rating
  {
    if ids == [] then [] else [reviews[ids[0]].rating] + RatingList(reviews, ids[1..])
  }

  /** The `{average, total}` the controller writes for tutor `t`. */
  function Recount(reviews: map<Id, Review>, t: Id): Rating
  {
    Aggregate(RatingList(reviews, ReviewsOf(reviews, t)))
  }

  predicate RatingsInRange(reviews: map<Id, Review>)
  {
    forall x :: x in reviews ==> 1 <= reviews[x].rating <= 5
  }

  /** The recount counts exactly the tutor's reviews; with none, it is
      `{average: 0, total: 0}`. */
  lemma RecountMeaning(reviews: map<Id, Review>, t: Id)
    ensures Recount(reviews, t).total == |ReviewsOf(reviews, t)|
    ensures Recount(reviews, t).total == 0 <==> forall x :: x in reviews ==> reviews[x].tutorId != t
    ensures Recount(reviews, t).total == 0 ==> Recount(reviews, t) == Unrated
  {
    var ids := ReviewsOf(reviews, t);
    if ids != [] {
      assert ids[0] in ids;
    }
  }

  /** With every stored rating between 1 and 5, a tutor with at least one
      review has an average between 1 and 5. */
  lemma RecountInRange(reviews: map<Id, Review>, t: Id)
    requires RatingsInRange(reviews)
    requires Recount(reviews, t).total > 0
    ensures 1.0 <= Recount(reviews, t).average <= 5.0
  {
    var ids := ReviewsOf(reviews, t);
    var rs := RatingList(reviews, ids);
    assert InRange(rs) by {
      forall i | 0 <= i < |rs| ensures 1 <= rs[i] <= 5 {
        assert ids[i] in ids;
      }
    }
    AverageInRange(rs);
  }

  lemma {:induction false} RatingListAppend(reviews: map<Id, Review>, ids: seq<Id>, k: Id)
    requires forall x :: x in ids ==> x in reviews
    requires k in reviews
    ensures RatingList(reviews, ids + [k]) == RatingList(reviews, ids) + [reviews[k].rating]
  {
  }

  /** Listing ids whose reviews are the same in two maps gives the same
      ratings. */
  lemma RatingListAgree(a: map<Id, Review>, b: map<Id, Review>, ids: seq<Id>)
    requires forall x :: x in ids ==> x in a && x in b && a[x] == b[x]
    ensures RatingList(a, ids) == RatingList(b, ids)
  {
  }

  /** Adding review `k`, with an id above every stored one, appends it to
      its tutor's reviews and leaves every other tutor's reviews as they
      were. */
  lemma ReviewsAfterInsert(reviews: map<Id, Review>, k: Id, r: Review, t: Id)
    requires forall x :: x in reviews ==> x < k
    ensures ReviewsOf(reviews[k := r], t) == ReviewsOf(reviews, t) + (if r.tutorId == t then [k] else [])
  {
    var after := reviews[k := r];
    assert after.Keys == reviews.Keys + {k};
    NaturalOrderAppend(reviews.Keys, k);
    var p := x => x in after && after[x].tutorId == t;
    var q := x => x in reviews && reviews[x].tutorId == t;
    SelectAppend(NaturalOrder(reviews.Keys), k, p);
    SelectAgree(NaturalOrder(reviews.Keys), p, q);
  }

  /** So the new rating joins the end of its tutor's recount input, and
      every other tutor's recount is unchanged. */
  lemma RecountAfterInsert(reviews: map<Id, Review>, k: Id, r: Review, t: Id)
    requires forall x :: x in reviews ==> x < k
    ensures r.tutorId == t ==>
      RatingList(reviews[k := r], ReviewsOf(reviews[k := r], t)) == RatingList(reviews, ReviewsOf(reviews, t)) + [r.rating]
    ensures r.tutorId != t ==> Recount(reviews[k := r], t) == Recount(reviews, t)
  {
    var after := reviews[k := r];
    ReviewsAfterInsert(reviews, k, r, t);
    var old_ids := ReviewsOf(reviews, t);
    assert forall x :: x in old_ids ==> x in reviews && x != k;
    RatingListAgree(reviews, after, old_ids);
    if r.tutorId == t {
      RatingListAppend(after, old_ids, k);
    } else {
      var new_ids := ReviewsOf(after, t);
      assert new_ids == old_ids;
      assert RatingList(after, new_ids) == RatingList(reviews, old_ids);
    }
  }

  /** Removing review `k` removes it from its tutor's reviews, keeping the
      order of the others. */
  lemma ReviewsAfterRemove(reviews: map<Id, Review>, k: Id, t: Id)
    requires k in reviews
    ensures ReviewsOf(reviews - {k}, t) == Select(ReviewsOf(reviews, t), x => x != k)
  {
    var after := reviews - {k};
    assert after.Keys == reviews.Keys - {k};
    NaturalOrderRemove(reviews.Keys, k);
    var p := x => x in after && after[x].tutorId == t;
    var q := x => x in reviews && reviews[x].tutorId == t;
    var all := NaturalOrder(reviews.Keys);
    forall x | x in all && x != k
      ensures p(x) == q(x)
    {
      assert x in after <==> x in reviews;
    }
    Filter2(all, k, p, q);
    calc {
      ReviewsOf(after, t);
      Select(NaturalOrder(after.Keys), p);
      Select(Select(all, x => x != k), p);
      Select(Select(all, q), x => x != k);
      Select(ReviewsOf(reviews, t), x => x != k);
    }
  }

  /** So every other tutor's recount is as it was. */
  lemma RecountAfterRemove(reviews: map<Id, Review>, k: Id, t: Id)
    requires k in reviews
    ensures ReviewsOf(reviews - {k}, t) == Select(ReviewsOf(reviews, t), x => x != k)
    ensures reviews[k].tutorId != t ==> Recount(reviews - {k}, t) == Recount(reviews, t)
  {
    ReviewsAfterRemove(reviews, k, t);
    if reviews[k].tutorId != t {
      var ids := ReviewsOf(reviews, t);
      assert k !in ids;
      SelectNothing(ids, x => x != k);
      RatingListAgree(reviews, reviews - {k}, ids);
    }
  }

  /** Filtering out `k` and then by `p` is filtering by `q` and then
      filtering out `k`, when `p` and `q` agree away from `k`. */
  lemma {:induction false} Filter2(s: seq<Id>, k: Id, p: Id -> bool, q: Id -> bool)
    requires forall x :: x in s && x != k ==> p(x) == q(x)
    ensures Select(Select(s, x => x != k), p) == Select(Select(s, q), x => x != k)
    decreases |s|
  {
    if s != [] {
      assert forall x :: x in s[1..] ==> x in s;
      Filter2(s[1..], k, p, q);
    }
  }

  /** `Review.find({tutorId}).sort({createdAt: -1})`: creation order is id
      order, so newest first is descending id. */
  function TutorReviews(reviews: map<Id, Review>, t: Id): (r: seq<Id>)
    ensures forall i, j :: 0 <= i < j < |r| ==> r[i] > r[j]
    ensures forall x :: x in r <==> x in reviews && reviews[x].tutorId == t
  {
    Reverse(ReviewsOf(reviews, t))
  }

  function Reverse(s: seq<Id>): (r: seq<Id>)
    ensures |r| == |s|
    ensures forall i :: 0 <= i < |s| ==> r[i] == s[|s| - 1 - i]
    ensures Increasing(s) ==> forall i, j :: 0 <= i < j < |r| ==> r[i] > r[j]
    ensures forall x :: x in r <==> x in s
  {
    if s == [] then [] else Reverse(s[1..]) + [s[0]]
  }
}
