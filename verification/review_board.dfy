/** The reviews page (`src/pages/Reviews.jsx`, and its copy
    `src/components/pages/ReviewsPage.jsx`): the loaded reviews, their
    average and per-rating counts, and the write-a-review dialog with its
    draft. The result of `reviewService.create` is a parameter: `Some` is
    the review it returned, `None` a rejected call. */
module ReviewBoard {
  import opened Wrappers
  import opened Seqs
  import opened Text

  datatype Review = Review(id: string, author: string, rating: int, comment: string, date: string)

  /** The `newReview` state. */
  datatype ReviewDraft = ReviewDraft(author: string, rating: int, comment: string)

  const EmptyDraft := ReviewDraft("", 5, "")

  /** The guard of `handleSubmitReview`: author or comment made of
      whitespace only (see IncompleteIsTrimGuard). */
  predicate Incomplete(d: ReviewDraft) {
    IsBlank(d.author) || IsBlank(d.comment)
  }

  /** The guard is `!author.trim() || !comment.trim()`. */
  lemma IncompleteIsTrimGuard(d: ReviewDraft)
    ensures Incomplete(d) <==> Trim(d.author) == "" || Trim(d.comment) == ""
  {
    TrimEmptyIffBlank(d.author);
    TrimEmptyIffBlank(d.comment);
  }

  /** `reviews.filter(review => review.rating === rating).length` */
  function CountRating(reviews: seq<Review>, rating: int): (n: nat)
    ensures n <= |reviews|
    ensures n == 0 <==> forall i :: 0 <= i < |reviews| ==> reviews[i].rating != rating
  {
    var matching := Filter(reviews, (r: Review) => r.rating == rating);
    assert matching != [] ==> matching[0] in matching;
    assert (exists i :: 0 <= i < |reviews| && reviews[i].rating == rating) ==> matching != [] by {
      if i :| 0 <= i < |reviews| && reviews[i].rating == rating {
        assert reviews[i] in matching;
      }
    }
    |matching|
  }

  /** One more review adds one to its own rating's count only. */
  lemma CountRatingSnoc(reviews: seq<Review>, review: Review, rating: int)
    ensures CountRating(reviews + [review], rating)
         == CountRating(reviews, rating) + (if review.rating == rating then 1 else 0)
  {
    assert (reviews + [review])[..|reviews|] == reviews;
  }

  /** With star ratings only, the five counts add up to the number of reviews. */
  lemma {:induction false} StarCountsCoverAll(reviews: seq<Review>)
    requires forall i :: 0 <= i < |reviews| ==> 1 <= reviews[i].rating <= 5
    ensures CountRating(reviews, 5) + CountRating(reviews, 4) + CountRating(reviews, 3)
          + CountRating(reviews, 2) + CountRating(reviews, 1) == |reviews|
    decreases |reviews|
  {
    if reviews != [] {
      var init, last := reviews[..|reviews| - 1], reviews[|reviews| - 1];
      assert init + [last] == reviews;
      StarCountsCoverAll(init);
      CountRatingSnoc(init, last, 5);
      CountRatingSnoc(init, last, 4);
      CountRatingSnoc(init, last, 3);
      CountRatingSnoc(init, last, 2);
      CountRatingSnoc(init, last, 1);
    }
  }

  datatype RatingCount = RatingCount(rating: int, count: nat)

  /** `ratingDistribution` without the display percentage. */
  function RatingDistribution(reviews: seq<Review>): (d: seq<RatingCount>)
    ensures |d| == 5
    ensures forall k :: 0 <= k < 5 ==> d[k].rating == 5 - k
    ensures forall k :: 0 <= k < 5 ==> d[k].count == CountRating(reviews, d[k].rating)
  {
    seq(5, k => RatingCount(5 - k, CountRating(reviews, 5 - k)))
  }

  /** With star ratings only, the distribution accounts for every review
      exactly once. */
  lemma DistributionCoversAll(reviews: seq<Review>)
    requires forall i :: 0 <= i < |reviews| ==> 1 <= reviews[i].rating <= 5
    ensures var d := RatingDistribution(reviews);
            d[0].count + d[1].count + d[2].count + d[3].count + d[4].count == |reviews|
  {
    StarCountsCoverAll(reviews);
  }

  /** `reviews.reduce((sum, review) => sum + review.rating, 0)` */
  function RatingTotal(reviews: seq<Review>): int {
    if reviews == [] then 0 else RatingTotal(reviews[..|reviews| - 1]) + reviews[|reviews| - 1].rating
  }

  /** `averageRating` before `toFixed(1)`: 0 with no reviews. */
  function AverageRating(reviews: seq<Review>): (avg: real)
    ensures reviews == [] ==> avg == 0.0
    ensures reviews != [] ==> avg * |reviews| as real == RatingTotal(reviews) as real
  {
    if |reviews| > 0 then RatingTotal(reviews) as real / |reviews| as real else 0.0
  }

  lemma {:induction false} RatingTotalBounds(reviews: seq<Review>)
    requires forall i :: 0 <= i < |reviews| ==> 1 <= reviews[i].rating <= 5
    ensures |reviews| <= RatingTotal(reviews) <= 5 * |reviews|
    decreases |reviews|
  {
    if reviews != [] {
      RatingTotalBounds(reviews[..|reviews| - 1]);
    }
  }

  /** A quotient of totals between one and five times the count. */
  lemma QuotientWithinStars(t: real, n: real)
    requires n > 0.0 && n <= t <= 5.0 * n
    ensures 1.0 <= t / n <= 5.0
  {
    var q := t / n;
    assert q * n == t;
    assert (q - 1.0) * n >= 0.0;
    assert (5.0 - q) * n >= 0.0;
  }

  /** With star ratings only, the average lies between one and five stars. */
  lemma AverageWithinStars(reviews: seq<Review>)
    requires reviews != []
    requires forall i :: 0 <= i < |reviews| ==> 1 <= reviews[i].rating <= 5
    ensures 1.0 <= AverageRating(reviews) <= 5.0
  {
    RatingTotalBounds(reviews);
    var n, t := |reviews| as real, RatingTotal(reviews) as real;
    assert t <= 5.0 * n by {
      assert (5 * |reviews|) as real == 5.0 * n;
    }
    QuotientWithinStars(t, n);
  }

  /** The page state: the list, the dialog and its draft. */
  class ReviewBoardState {
    var reviews: seq<Review>
    var showWriteReview: bool
    var newReview: ReviewDraft

    /** The page after `getAll` delivered `loaded`. */
    constructor (loaded: seq<Review>)
      ensures reviews == loaded && !showWriteReview && newReview == EmptyDraft
    {
      reviews := loaded;
      showWriteReview := false;
      newReview := EmptyDraft;
    }

    method OpenWriteReview()
      modifies this
      ensures showWriteReview && reviews == old(reviews) && newReview == old(newReview)
    {
      showWriteReview := true;
    }

    /** Cancel: hides the dialog and keeps the draft. */
    method CloseWriteReview()
      modifies this
      ensures !showWriteReview && reviews == old(reviews) && newReview == old(newReview)
    {
      showWriteReview := false;
    }

    method SetAuthor(value: string)
      modifies this
      ensures newReview == old(newReview).(author := value)
      ensures reviews == old(reviews) && showWriteReview == old(showWriteReview)
    {
      newReview := newReview.(author := value);
    }

    method SetComment(value: string)
      modifies this
      ensures newReview == old(newReview).(comment := value)
      ensures reviews == old(reviews) && showWriteReview == old(showWriteReview)
    {
      newReview := newReview.(comment := value);
    }

    /** A click on interactive star `star` of the 1..5 row. */
    method ClickStar(star: int)
      requires 1 <= star <= 5
      modifies this
      ensures newReview == old(newReview).(rating := star)
      ensures reviews == old(reviews) && showWriteReview == old(showWriteReview)
    {
      newReview := newReview.(rating := star);
    }

    /** `handleSubmitReview`. `sent` is the draft handed to the service, or
        `None` when the guard stopped the submission first. */
    method HandleSubmitReview(created: Option<Review>) returns (sent: Option<ReviewDraft>)
      modifies this
      ensures sent.None? <==> Incomplete(old(newReview))
      ensures sent.Some? ==> sent.value == old(newReview)
      ensures sent.Some? && created.Some? ==>
                && reviews == [created.value] + old(reviews)
                && newReview == EmptyDraft
                && !showWriteReview
      ensures sent.None? || created.None? ==>
                && reviews == old(reviews)
                && newReview == old(newReview)
                && showWriteReview == old(showWriteReview)
    {
      if Incomplete(newReview) {
        sent := None;
      } else {
        sent := Some(newReview);
        if created.Some? {
          reviews := [created.value] + reviews;
          newReview := EmptyDraft;
          showWriteReview := false;
        }
      }
    }
  }
}
