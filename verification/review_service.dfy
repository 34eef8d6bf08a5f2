/** The in-memory review table (`src/services/api/reviewService.js`).
    New reviews go to the front. `getAll` sorts a copy newest first;
    `timeOf(r)` stands for `new Date(r.date)` in milliseconds, since date
    parsing is outside the model. */
module ReviewService {
  import opened Wrappers
  import opened Records
  import opened Text
  import opened Seqs

  const NotFound := "Review not found"

  /** `s.split('T')[0]`: everything before the first 'T'. */
  function DatePart(s: string): (r: string)
    ensures |r| <= |s| && r == s[..|r|]
    ensures forall i :: 0 <= i < |r| ==> r[i] != 'T'
    ensures |r| < |s| ==> s[|r|] == 'T'
  {
    if s == [] || s[0] == 'T' then [] else [s[0]] + DatePart(s[1..])
  }

  /** `{ ...review, id, date }` */
  function NewReview(review: Record, now: nat, iso: nat -> string): (r: Record)
    ensures r.Keys == review.Keys + {"id", "date"}
    ensures r["id"] == Str(Decimal(now)) && r["date"] == Str(DatePart(iso(now)))
    ensures forall k :: k in review && k != "id" && k != "date" ==> r[k] == review[k]
  {
    Spread(review, map["id" := Str(Decimal(now)), "date" := Str(DatePart(iso(now)))])
  }

  ghost predicate NewestFirst<T>(s: seq<T>, timeOf: T -> int) {
    forall i, j :: 0 <= i < j < |s| ==> timeOf(s[i]) >= timeOf(s[j])
  }

  /** Puts x before the first element that is not newer than it. */
  function InsertByDate<T>(x: T, s: seq<T>, timeOf: T -> int): (r: seq<T>)
    requires NewestFirst(s, timeOf)
    ensures |r| == |s| + 1
    ensures NewestFirst(r, timeOf)
    ensures s != [] && timeOf(x) < timeOf(s[0]) ==> r[0] == s[0]
    ensures s == [] || timeOf(x) >= timeOf(s[0]) ==> r[0] == x
    ensures multiset(r) == multiset(s) + multiset{x}
  {
    if s == [] || timeOf(x) >= timeOf(s[0]) then [x] + s
    else
      var rest := InsertByDate(x, s[1..], timeOf);
      assert s == [s[0]] + s[1..];
      [s[0]] + rest
  }

  /** `[...data].sort((a, b) => new Date(b.date) - new Date(a.date))`,
      as an insertion sort. */
  function SortNewestFirst<T>(data: seq<T>, timeOf: T -> int): (r: seq<T>)
    ensures NewestFirst(r, timeOf)
    ensures multiset(r) == multiset(data)
  {
    if data == [] then []
    else
      assert data == [data[0]] + data[1..];
      InsertByDate(data[0], SortNewestFirst(data[1..], timeOf), timeOf)
  }

  /** Holds for the elements dated `t`. */
  function AtTime<T>(timeOf: T -> int, t: int): T -> bool {
    x => timeOf(x) == t
  }

  lemma FilterSingle<T(!new)>(y: T, p: T -> bool)
    ensures Filter([y], p) == if p(y) then [y] else []
  {
    assert [y][..0] == [];
  }

  /** Inserting x adds it in front of the other elements with its date:
      among equal dates, x comes first. */
  lemma {:induction false} InsertKeepsDateOrder<T(!new)>(x: T, s: seq<T>, timeOf: T -> int, t: int)
    requires NewestFirst(s, timeOf)
    ensures Filter(InsertByDate(x, s, timeOf), AtTime(timeOf, t))
         == Filter([x], AtTime(timeOf, t)) + Filter(s, AtTime(timeOf, t))
    decreases |s|
  {
    var p := AtTime(timeOf, t);
    if s == [] || timeOf(x) >= timeOf(s[0]) {
      assert InsertByDate(x, s, timeOf) == [x] + s;
      FilterAppend([x], s, p);
    } else {
      var head, rest := s[0], s[1..];
      assert s == [head] + rest;
      var inserted := InsertByDate(x, rest, timeOf);
      assert InsertByDate(x, s, timeOf) == [head] + inserted;
      InsertKeepsDateOrder(x, rest, timeOf, t);
      // x is older than head, so at most one of them is dated t
      FilterPassOver(x, head, rest, inserted, p);
    }
  }

  /** Moving x past an element that p does not select together with x
      leaves the p-filtered sequence as it was. */
  lemma FilterPassOver<T(!new)>(x: T, head: T, rest: seq<T>, inserted: seq<T>, p: T -> bool)
    requires Filter(inserted, p) == Filter([x], p) + Filter(rest, p)
    requires !(p(x) && p(head))
    ensures Filter([head] + inserted, p) == Filter([x], p) + Filter([head] + rest, p)
  {
    FilterAppend([head], inserted, p);
    FilterAppend([head], rest, p);
    FilterSingle(x, p);
    FilterSingle(head, p);
    if p(x) {
      SkipEmpty(Filter([head], p), Filter([x], p), Filter(rest, p));
    } else {
      SkipEmpty(Filter([x], p), Filter([head], p), Filter(rest, p));
    }
  }

  /** Two segments of which one is empty commute. */
  lemma SkipEmpty<T>(empty: seq<T>, a: seq<T>, b: seq<T>)
    requires empty == []
    ensures empty + (a + b) == a + (empty + b)
  {
    assert empty + (a + b) == a + b;
    assert empty + b == b;
  }

  /** The sort is stable: the reviews of any one date come out in their
      table order. */
  lemma {:induction false} SortIsStable<T(!new)>(data: seq<T>, timeOf: T -> int, t: int)
    ensures Filter(SortNewestFirst(data, timeOf), AtTime(timeOf, t)) == Filter(data, AtTime(timeOf, t))
    decreases |data|
  {
    if data != [] {
      var head, rest := data[0], data[1..];
      assert data == [head] + rest;
      SortIsStable(rest, timeOf, t);
      InsertKeepsDateOrder(head, SortNewestFirst(rest, timeOf), timeOf, t);
      FilterAppend([head], rest, AtTime(timeOf, t));
    }
  }

  /** `review.rating` read as a number; a missing or non-numeric rating
      counts as 0 here. */
  function RatingOf(rec: Record): real {
    if "rating" in rec && rec["rating"].Num? then rec["rating"].n else 0.0
  }

  /** `data.reduce((acc, review) => acc + review.rating, 0)` */
  function RatingSum(data: seq<Record>): real {
    if data == [] then 0.0 else RatingSum(data[..|data| - 1]) + RatingOf(data[|data| - 1])
  }

  class ReviewTable {
    var reviewData: seq<Record>

    constructor (fixture: seq<Record>)
      ensures reviewData == fixture
    {
      reviewData := fixture;
    }

    /** `getAll`: every review, newest first; the table itself keeps its order. */
    method GetAll(timeOf: Record -> int) returns (r: seq<Record>)
      ensures NewestFirst(r, timeOf)
      ensures multiset(r) == multiset(reviewData)
      ensures forall t :: Filter(r, AtTime(timeOf, t)) == Filter(reviewData, AtTime(timeOf, t))
    {
      r := SortNewestFirst(reviewData, timeOf);
      forall t {
        SortIsStable(reviewData, timeOf, t);
      }
    }

    /** `getById`: the first review with that id, or "Review not found". */
    method GetById(id: string) returns (r: Result<Record>)
      ensures r.Err? <==> NoneHasId(reviewData, id)
      ensures r.Err? ==> r.message == NotFound
      ensures r.Ok? ==> exists i :: 0 <= i < |reviewData| && r.value == reviewData[i]
                          && HasId(reviewData[i], id) && NoneHasId(reviewData[..i], id)
    {
      var found := IndexOfId(reviewData, id);
      match found {
        case None => r := Err(NotFound);
        case Some(i) => r := Ok(reviewData[i]);
      }
    }

    /** `create`: `unshift`s the new review to the front. */
    method Create(review: Record, now: nat, iso: nat -> string) returns (r: Record)
      modifies this
      ensures r == NewReview(review, now, iso)
      ensures reviewData == [r] + old(reviewData)
    {
      r := NewReview(review, now, iso);
      reviewData := [r] + reviewData;
    }

    /** `update`: merges `data` into the first review with that id. */
    method Update(id: string, data: Record) returns (r: Result<Record>)
      modifies this
      ensures match IndexOfId(old(reviewData), id)
        case None => r == Err(NotFound) && reviewData == old(reviewData)
        case Some(i) =>
          && r == Ok(Spread(old(reviewData)[i], data))
          && reviewData == old(reviewData)[i := r.value]
    {
      var found := IndexOfId(reviewData, id);
      match found {
        case None => r := Err(NotFound);
        case Some(i) =>
          reviewData := reviewData[i := Spread(reviewData[i], data)];
          r := Ok(reviewData[i]);
      }
    }

    /** `delete`: splices out the first review with that id. */
    method Delete(id: string) returns (r: Result<Record>)
      modifies this
      ensures match IndexOfId(old(reviewData), id)
        case None => r == Err(NotFound) && reviewData == old(reviewData)
        case Some(i) => r == Ok(Success) && reviewData == RemoveAt(old(reviewData), i)
    {
      var found := IndexOfId(reviewData, id);
      match found {
        case None => r := Err(NotFound);
        case Some(i) =>
          reviewData := RemoveAt(reviewData, i);
          r := Ok(Success);
      }
    }

    /** `getAverageRating`: 0 for an empty table, otherwise the mean rating
        (before `toFixed(1)`). */
    method GetAverageRating() returns (avg: real)
      ensures |reviewData| == 0 ==> avg == 0.0
      ensures |reviewData| > 0 ==> avg * |reviewData| as real == RatingSum(reviewData)
    {
      if |reviewData| == 0 {
        return 0.0;
      }
      avg := RatingSum(reviewData) / |reviewData| as real;
    }
  }
}
