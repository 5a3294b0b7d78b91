/** The good-reviews panel (client/src/components/GoodReviews/index.tsx). */
module GoodReviews {
  import opened Seqs
  import opened ClientTypes

  const NO_GOOD_REVIEWS := "No good reviews yet."

  /** The panel's filter: a rating strictly above 5. */
  function IsGood(r: Review): bool { r.rating > 5 }

  /** A review list panel: the empty-state message, or one card per review in order. */
  datatype Panel = EmptyState(message: string) | Cards(reviews: seq<Review>)

  /** `reviews.filter((r) => r.rating > 5)`, in input order. */
  function GoodList(reviews: seq<Review>): (good: seq<Review>)
    ensures forall i :: 0 <= i < |good| ==> good[i].rating > 5 && good[i] in reviews
    ensures forall i :: 0 <= i < |reviews| && reviews[i].rating > 5 ==> reviews[i] in good
  {
    Filter(reviews, IsGood)
  }

  /** The list keeps the input's order: listing two batches is listing each and concatenating. */
  lemma GoodListConcat(a: seq<Review>, b: seq<Review>)
    ensures GoodList(a + b) == GoodList(a) + GoodList(b)
  {
    FilterConcat(a, b, IsGood);
  }

  /** The empty-state message shows exactly when no review is rated above 5. */
  function GoodPanel(reviews: seq<Review>): (p: Panel)
    ensures p.EmptyState? <==> forall i :: 0 <= i < |reviews| ==> reviews[i].rating <= 5
    ensures p.EmptyState? ==> p.message == NO_GOOD_REVIEWS
    ensures p.Cards? ==> p.reviews == GoodList(reviews) && p.reviews != []
  {
    var good := GoodList(reviews);
    if |good| == 0 then
      EmptyState(NO_GOOD_REVIEWS)
    else
      assert good[0] in reviews;
      Cards(good)
  }
}
