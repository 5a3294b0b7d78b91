/** The bad-reviews panel (client/src/components/BadReviews/index.tsx), and how it sits beside the others. */
module BadReviews {
  import opened Seqs
  import opened ClientTypes
  import GoodReviews
  import StatsView

  const NO_BAD_REVIEWS := "No bad reviews yet."

  /**
   * `reviews.filter((r) => r.rating < 5)`, in input order. The filter is the stats' dislike
   * predicate, so the dislike count is the length of this list.
   */
  function BadList(reviews: seq<Review>): (bad: seq<Review>)
    ensures forall i :: 0 <= i < |bad| ==> bad[i].rating < 5 && bad[i] in reviews
    ensures forall i :: 0 <= i < |reviews| && reviews[i].rating < 5 ==> reviews[i] in bad
  {
    Filter(reviews, StatsView.IsDislike)
  }

  /** The list keeps the input's order: listing two batches is listing each and concatenating. */
  lemma BadListConcat(a: seq<Review>, b: seq<Review>)
    ensures BadList(a + b) == BadList(a) + BadList(b)
  {
    FilterConcat(a, b, StatsView.IsDislike);
  }

  /** The empty-state message shows exactly when no review is rated below 5. */
  function BadPanel(reviews: seq<Review>): (p: GoodReviews.Panel)
    ensures p.EmptyState? <==> forall i :: 0 <= i < |reviews| ==> reviews[i].rating >= 5
    ensures p.EmptyState? ==> p.message == NO_BAD_REVIEWS
    ensures p.Cards? ==> p.reviews == BadList(reviews) && p.reviews != []
  {
    var bad := BadList(reviews);
    if |bad| == 0 then
      GoodReviews.EmptyState(NO_BAD_REVIEWS)
    else
      assert bad[0] in reviews;
      GoodReviews.Cards(bad)
  }

  /** No review is in both panels, and a rating of exactly 5 is in neither. */
  lemma GoodAndBadDisjoint(reviews: seq<Review>)
    ensures forall r :: r in GoodReviews.GoodList(reviews) ==> r !in BadList(reviews)
    ensures forall r :: r in reviews && r.rating == 5 ==>
              r !in GoodReviews.GoodList(reviews) && r !in BadList(reviews)
  {
  }

  /**
   * The stats count a rating of 5 as a like although the good panel does not list it: the likes
   * are the good panel's reviews plus the reviews rated exactly 5.
   */
  lemma LikesIncludeFives(reviews: seq<Review>)
    ensures |Filter(reviews, StatsView.IsLike)| == |GoodReviews.GoodList(reviews)| + |Filter(reviews, IsFive)|
  {
    FilterSplit(reviews, StatsView.IsLike, GoodReviews.IsGood, IsFive);
  }

  function IsFive(r: Review): bool { r.rating == 5 }
}
