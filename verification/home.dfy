/**
 * The home page (client/src/pages/home.tsx): the signed-in user's id and the list of reviews of
 * the selected movie, which the review form's callback updates locally.
 */
module Home {
  import opened Options
  import opened Seqs
  import opened ClientTypes

  /** `props?.user?.id || 1`: a missing id, or the falsy id 0, falls back to user 1. */
  function DefaultUserId(userId: Option<int>): (r: int)
    ensures r != 0
    ensures userId.Some? && userId.value != 0 ==> r == userId.value
    ensures userId.None? || userId.value == 0 ==> r == 1
  {
    if userId.Some? && userId.value != 0 then userId.value else 1
  }

  /** The `findIndex` predicate of the reducer: the same review id. */
  function HasId(id: int): Review -> bool { (r: Review) => r.id == id }

  /**
   * The state update of `handleReviewCreatedOrUpdated`: the first review with the incoming id is
   * replaced by it, or, when there is none, the incoming review is appended.
   */
  function ReplaceOrAppend(prev: seq<Review>, review: Review): (next: seq<Review>)
    ensures review in next
    ensures (exists i :: 0 <= i < |prev| && prev[i].id == review.id) ==>
              && |next| == |prev|
              && exists i :: 0 <= i < |prev| && prev[i].id == review.id && next[i] == review
                   && (forall j :: 0 <= j < i ==> prev[j].id != review.id)
                   && (forall j :: 0 <= j < |prev| && j != i ==> next[j] == prev[j])
    ensures (forall i :: 0 <= i < |prev| ==> prev[i].id != review.id) ==> next == prev + [review]
  {
    var i := FindIndex(prev, HasId(review.id));
    if i >= 0 then
      var next := prev[i := review];
      assert next[i] == review && HasId(review.id)(prev[i]);
      next
    else
      var next := prev + [review];
      assert next[|prev|] == review;
      next
  }

  /** The ids in a list of reviews. */
  function Ids(s: seq<Review>): set<int> {
    set i | 0 <= i < |s| :: s[i].id
  }

  /** No two entries share an id. */
  predicate DistinctIds(s: seq<Review>) {
    forall i, j :: 0 <= i < j < |s| ==> s[i].id != s[j].id
  }

  /** The update adds the incoming id to the list's ids and no other. */
  lemma ReplaceOrAppendIds(prev: seq<Review>, review: Review)
    ensures Ids(ReplaceOrAppend(prev, review)) == Ids(prev) + {review.id}
  {
    var next := ReplaceOrAppend(prev, review);
    var i := FindIndex(prev, HasId(review.id));
    forall x | x in Ids(prev) + {review.id}
      ensures x in Ids(next)
    {
      if x != review.id {
        var j :| 0 <= j < |prev| && prev[j].id == x;
        assert next[j] == prev[j];
      } else {
        var j :| 0 <= j < |next| && next[j] == review;
      }
    }
    forall x | x in Ids(next)
      ensures x in Ids(prev) + {review.id}
    {
      var j :| 0 <= j < |next| && next[j].id == x;
      if next[j] != review {
        assert j < |prev| && next[j] == prev[j];
      }
    }
  }

  /** A list without duplicate ids keeps that property. */
  lemma ReplaceOrAppendDistinct(prev: seq<Review>, review: Review)
    requires DistinctIds(prev)
    ensures DistinctIds(ReplaceOrAppend(prev, review))
  {
    var i := FindIndex(prev, HasId(review.id));
    var next := ReplaceOrAppend(prev, review);
    if i < 0 {
      assert next == prev + [review];
    }
  }

  /** Delivering the same review twice has the effect of delivering it once. */
  lemma ReplaceOrAppendIdempotent(prev: seq<Review>, review: Review)
    ensures ReplaceOrAppend(ReplaceOrAppend(prev, review), review) == ReplaceOrAppend(prev, review)
  {
    var next := ReplaceOrAppend(prev, review);
    var i := FindIndex(prev, HasId(review.id));
    var k := FindIndex(next, HasId(review.id));
    if i >= 0 {
      assert k == i;
    } else {
      assert next[|prev|] == review;
      assert k == |prev|;
    }
  }

  /** The page's state: the user's id and the reviews of the selected movie. */
  class HomePage {
    var userId: int
    var reviews: seq<Review>

    constructor (user: Option<int>)
      ensures userId == DefaultUserId(user) && reviews == []
    {
      userId := DefaultUserId(user);
      reviews := [];
    }

    /** The effect on `props`: the user id is recomputed with the same fallback. */
    method SetUser(user: Option<int>)
      modifies this
      ensures userId == DefaultUserId(user) && reviews == old(reviews)
    {
      userId := DefaultUserId(user);
    }

    /** `onFetchReviews`: the fetched list replaces the local one wholesale. */
    method OnFetchReviews(fetched: seq<Review>)
      modifies this
      ensures reviews == fetched && userId == old(userId)
    {
      reviews := fetched;
    }

    /**
     * `handleReviewCreatedOrUpdated`: a review is merged into the list by copying it and writing
     * one slot, or by appending; `null` leaves the list alone and asks for a refetch.
     */
    method HandleReviewCreatedOrUpdated(newReview: Option<Review>) returns (refetch: bool)
      modifies this
      ensures userId == old(userId)
      ensures newReview.Some? ==> !refetch && reviews == ReplaceOrAppend(old(reviews), newReview.value)
      ensures newReview.None? ==> refetch && reviews == old(reviews)
    {
      if newReview.None? {
        return true;
      }
      var review := newReview.value;
      var prev := reviews;
      var existingIndex := FindIndex(prev, HasId(review.id));
      if existingIndex >= 0 {
        var updated := new Review[|prev|](i requires 0 <= i < |prev| => prev[i]);
        updated[existingIndex] := review;
        reviews := updated[..];
        assert reviews == prev[existingIndex := review];
      } else {
        reviews := prev + [review];
      }
      refetch := false;
    }
  }
}
