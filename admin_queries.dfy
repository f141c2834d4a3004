/** The admin tutor listing of Controllers/adminController.js: page and
    limit from the query string, the optional `isVerified` filter, the
    skip/limit window and the page count. (`verifyTutor` changes the store
    and is `Store.Db.VerifyTutor`.) */
module AdminQueries {
  import opened Common
  import opened Ordering
  import opened TutorSchema

  /** `Math.ceil` on a real. */
  function Ceil(x: real): (c: int)
    ensures c as real - 1.0 < x <= c as real
  {
    if x == x.Floor as real then x.Floor else x.Floor + 1
  }

  /** `Math.ceil(total / limit)` for a positive limit is the number of
      pages of `limit` that hold `total` items: the last page is non-empty
      and none is missing; there are no pages exactly when there is
      nothing to list. */
  lemma PagesCoverTotal(total: nat, limit: int)
    requires limit > 0
    ensures var pages := Pages(total, limit);
      && pages >= 0
      && (pages - 1) * limit < total <= pages * limit
      && (pages == 0 <==> total == 0)
  {
    var x := total as real / limit as real;
    var pages := Pages(total, limit);
    assert pages == Ceil(x);
    assert x * (limit as real) == total as real;
    assert x >= 0.0;
    if total == 0 {
      assert x == 0.0;
    } else {
      assert x > 0.0;
      var n := limit as real;
      ScaleBelow(pages as real - 1.0, x, n);
      ScaleAtMost(x, pages as real, n);
      ProductAsReal(pages - 1, limit);
      ProductAsReal(pages, limit);
      assert ((pages - 1) * limit) as real < total as real;
      assert total as real <= (pages * limit) as real;
    }
  }

  lemma ProductAsReal(a: int, b: int)
    ensures (a * b) as real == (a as real) * (b as real)
  {
  }

  lemma ScaleBelow(a: real, b: real, n: real)
    requires a < b && n > 0.0
    ensures a * n < b * n
  {
  }

  lemma ScaleAtMost(a: real, b: real, n: real)
    requires a <= b && n > 0.0
    ensures a * n <= b * n
  {
  }

  /** `filter.isVerified = isVerified === 'true'`, set only when the
      parameter is present. */
  function VerifiedFilter(isVerified: Option<string>): (f: Option<bool>)
    ensures f.Some? <==> isVerified.Some?
    ensures f.Some? ==> (f.value <==> isVerified.value == "true")
  {
    if isVerified.Some? then Some(isVerified.value == "true") else None
  }

  /** The tutors the filter admits, in natural order. */
  function Listed(tutors: map<Id, Tutor>, f: Option<bool>): (r: seq<Id>)
    ensures Increasing(r)
    ensures forall x :: x in r <==> x in tutors && (f.None? || tutors[x].isVerified == f.value)
  {
    Select(NaturalOrder(tutors.Keys), x => x in tutors && (f.None? || tutors[x].isVerified == f.value))
  }

  datatype AdminPage = AdminPage(success: bool, count: nat, total: nat, page: int, pages: int, data: seq<Id>)

  /** `(page - 1) * limit`. */
  function Skip(page: int, limit: int): int
  {
    (page - 1) * limit
  }

  /** `Math.ceil(total / limit)`. */
  function Pages(total: nat, limit: int): int
    requires limit != 0
  {
    Ceil(total as real / limit as real)
  }

  /** The page `getAllTutors` replies with for the listed ids: `skip =
      (page - 1) * limit`, which the database refuses when negative; a
      negative limit is read as its absolute value. */
  function PageOf(ids: seq<Id>, page: int, limit: int): (r: Reply<AdminPage>)
    requires limit != 0
    ensures Skip(page, limit) < 0 <==> r.Err?
    ensures r.Err? ==> r.status == 500
    ensures r.Ok? ==>
      && r.status == 200 && r.value.success
      && r.value.page == page
      && r.value.total == |ids|
      && r.value.count == |r.value.data| <= Abs(limit)
      && r.value.pages == Pages(|ids|, limit)
    ensures r.Ok? && Skip(page, limit) >= |ids| ==> r.value.count == 0
    ensures r.Ok? && Skip(page, limit) < |ids| ==>
      var skip := Skip(page, limit);
      skip + r.value.count <= |ids| && r.value.data == ids[skip..skip + r.value.count]
  {
    var skip := Skip(page, limit);
    if skip < 0 then Err(500, DriverFailure("skip must be non-negative"))
    else
      var data := Window(ids, skip, Abs(limit));
      Ok(200, AdminPage(true, |data|, |ids|, page, Pages(|ids|, limit), data))
  }

  /** `getAllTutors`: `page` defaults to 1 and `limit` to 10 when the parse
      gives 0 or NaN, and the tutors the `isVerified` filter admits are
      paged in natural order. */
  function AllTutors(tutors: map<Id, Tutor>, pageParam: Option<int>, limitParam: Option<int>, isVerified: Option<string>): (r: Reply<AdminPage>)
    ensures var page := IntOr(pageParam, 1);
      var limit := IntOr(limitParam, 10);
      var skip := Skip(page, limit);
      var ids := Listed(tutors, VerifiedFilter(isVerified));
      && (skip < 0 <==> r.Err?)
      && (r.Err? ==> r.status == 500)
      && (r.Ok? ==>
        && r.status == 200 && r.value.success
        && r.value.page == page
        && r.value.total == |ids|
        && r.value.count == |r.value.data| <= Abs(limit)
        && r.value.pages == Pages(|ids|, limit)
        && (skip >= |ids| ==> r.value.count == 0)
        && (skip < |ids| ==> skip + r.value.count <= |ids|)
        && r.value.data == Window(ids, skip, Abs(limit)))
  {
    PageOf(Listed(tutors, VerifiedFilter(isVerified)), IntOr(pageParam, 1), IntOr(limitParam, 10))
  }

  /** With no parameters the first ten tutors in natural order are
      listed, or all of them when there are fewer. */
  lemma DefaultPaging(tutors: map<Id, Tutor>)
    ensures var r := AllTutors(tutors, None, None, None);
      var ids := Listed(tutors, None);
      && r.Ok? && r.value.page == 1
      && r.value.count == (if |ids| < 10 then |ids| else 10)
      && r.value.data == ids[..r.value.count]
  {
    var ids := Listed(tutors, None);
    assert Skip(1, 10) == 0;
    var w := Window(ids, 0, 10);
    if ids == [] {
      assert w == [] == ids[..0];
    }
  }

  /** A negative page number with a positive limit is refused, while page
      0 falls back to page 1. */
  lemma NonPositivePage(tutors: map<Id, Tutor>, p: int, l: int)
    requires p < 0 && l > 0
    ensures AllTutors(tutors, Some(p), Some(l), None).Err?
    ensures AllTutors(tutors, Some(0), Some(l), None).Ok?
  {
    assert Skip(p, l) < 0 by {
      ScaleIntNeg(p - 1, l);
    }
  }

  lemma ScaleIntNeg(a: int, b: int)
    requires a < 0 && b > 0
    ensures a * b < 0
  {
  }
}
