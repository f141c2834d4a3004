/** A tutor's rating summary: a full recount over the tutor's reviews,
    `total` = how many, `average` = their sum over `total`, 0 when there
    are none (Controllers/reviewController.js). Averages are exact reals. */
module Ratings {

  datatype Rating = Rating(average: real, total: nat)

  /** The schema default `{average: 0, total: 0}`. */
  const Unrated: Rating := Rating(0.0, 0)

  /** `reviews.reduce((sum, r) => sum + r.rating, 0)`. */
  function Sum(rs: seq<int>): int
  {
    if rs == [] then 0 else Sum(rs[..|rs| - 1]) + rs[|rs| - 1]
  }

  predicate InRange(rs: seq<int>)
  {
    forall i :: 0 <= i < |rs| ==> 1 <= rs[i] <= 5
  }

  /** The recount. Its total is the number of ratings; with none it is
      the schema default (see `AggregateMean` for the average). */
  function Aggregate(rs: seq<int>): (r: Rating)
    ensures r.total == |rs|
    ensures r.total == 0 ==> r == Unrated
  {
    if |rs| == 0 then Unrated else Rating((Sum(rs) as real) / (|rs| as real), |rs|)
  }

  /** When there is at least one rating, the average times the total is
      their sum. */
  lemma AggregateMean(rs: seq<int>)
    requires |rs| > 0
    ensures Aggregate(rs).average * (Aggregate(rs).total as real) == Sum(rs) as real
  {
  }

  lemma {:induction false} SumAppend(rs: seq<int>, x: int)
    ensures Sum(rs + [x]) == Sum(rs) + x
  {
    assert (rs + [x])[..|rs + [x]| - 1] == rs;
  }

  lemma {:induction false} SumBounds(rs: seq<int>)
    requires InRange(rs)
    ensures |rs| <= Sum(rs) <= 5 * |rs|
  {
    if rs != [] {
      var init := rs[..|rs| - 1];
      assert InRange(init) by {
        forall i | 0 <= i < |init| ensures 1 <= init[i] <= 5 {
          assert init[i] == rs[i];
        }
      }
      SumBounds(init);
    }
  }

  /** With every rating between 1 and 5, a non-empty recount's average lies
      between 1 and 5. */
  lemma AverageInRange(rs: seq<int>)
    requires InRange(rs)
    requires |rs| > 0
    ensures 1.0 <= Aggregate(rs).average <= 5.0
  {
    SumBounds(rs);
    MeanBounds(Sum(rs) as real, |rs| as real);
  }

  /** A sum between n and 5n has a mean between 1 and 5. */
  lemma MeanBounds(s: real, n: real)
    requires n > 0.0
    requires n <= s <= 5.0 * n
    ensures 1.0 <= s / n <= 5.0
  {
    var a := s / n;
    assert a * n == s;
    if a < 1.0 {
      ScaleStrict(a, 1.0, n);
    }
    if a > 5.0 {
      ScaleStrict(5.0, a, n);
    }
  }

  lemma ScaleStrict(x: real, y: real, n: real)
    requires x < y && n > 0.0
    ensures x * n < y * n
  {
  }

  /** Ratings 4, 5, 3 give average 4 over 3; without the 3 the average is
      4.5 over 2; with none left, 0 over 0. */
  lemma Examples()
    ensures Aggregate([4, 5, 3]) == Rating(4.0, 3)
    ensures Aggregate([4, 5]) == Rating(4.5, 2)
    ensures Aggregate([]) == Rating(0.0, 0)
  {
    assert Sum([4, 5, 3]) == 12 by {
      assert [4, 5, 3][..2] == [4, 5];
      assert [4, 5][..1] == [4];
      assert [4][..0] == [];
    }
    assert Sum([4, 5]) == 9 by {
      assert [4, 5][..1] == [4];
      assert [4][..0] == [];
    }
  }
}
