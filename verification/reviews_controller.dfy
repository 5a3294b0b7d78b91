/**
 * `ReviewsController` (review-server/server/api/controllers/reviews/reviewsController.ts): the
 * review upsert behind `POST /reviews`, and the update and delete handlers.
 */
module ReviewsController {
  import opened Options
  import opened DocStore
  import opened Http
  import opened Seqs
  import opened ReviewService

  /** The fields `addDocument` destructures from the request body. */
  datatype AddReviewBody = AddReviewBody(userId: int, movieId: int, comment: string, rating: int)

  const ADD_FAILED := "Failed to create or update review"
  const UPDATE_FAILED := "Failed to update review"
  const DELETE_FAILED := "Failed to delete review"

  /** The patch `{ comment, rating }` that both `addDocument` and `updateDocument` pass to `update`. */
  function CommentAndRating(comment: string, rating: int): ReviewPatch {
    ReviewPatch(None, None, None, Some(comment), Some(rating), None)
  }

  /**
   * `addDocument`: sanitise the comment, look for the user's review among the movie's reviews,
   * and update it in place (200) or create a new review (201). `replaceProfanities` is the
   * profanity filter and `now` the creation timestamp.
   */
  method AddDocument(service: OpenSearchReviewsService, body: AddReviewBody,
                     replaceProfanities: string -> string, now: string)
    returns (response: Response<Review>)
    modifies service
    ensures old(service.Valid()) ==> service.Valid()
    ensures response.status == 200 || response.status == 201 || response.status == 500
    // the create path: one new review under the next id, carrying the sanitised comment
    ensures response.status == 201 ==>
              && response.body.Json?
              && var created := response.body.value;
              && created.id == old(service.idCounter) && service.idCounter == old(service.idCounter) + 1
              && created == Review(created.id, body.movieId, body.userId, replaceProfanities(body.comment), body.rating, now)
              && service.store == old(service.store)[created.id := created]
              && (old(service.Valid()) ==> created.id !in old(service.store))
    // the update path: the user's review of the movie, addressed by its id, gets the sanitised
    // comment and the new rating; everything else about it is kept
    ensures response.status == 200 ==>
              && service.idCounter == old(service.idCounter)
              && exists k :: k in old(service.store)
                   && old(service.store)[k].userId == body.userId && old(service.store)[k].movieId == body.movieId
                   && var id := old(service.store)[k].id;
                   && id in old(service.store)
                   && response.body == Json(old(service.store)[id].(comment := replaceProfanities(body.comment), rating := body.rating))
                   && service.store == old(service.store)[id := response.body.value]
    ensures response.status == 500 ==>
              && response.body.ErrorEnvelope?
              && response == ServerError(ADD_FAILED, response.body.details)
              && service.store == old(service.store) && service.idCounter == old(service.idCounter)
    ensures IdsMatchKeys(old(service.store)) ==> response.status != 500 && IdsMatchKeys(service.store)
    // which path is taken
    ensures !HasReviewBy(old(service.store), body.userId, body.movieId) ==> response.status == 201
    ensures (&& HasReviewBy(old(service.store), body.userId, body.movieId)
             && |Selected(old(service.store), OfMovie(body.movieId))| <= MAX_RETURNED_RESULTS)
            ==> response.status != 201
    ensures response.status != 500 ==> HasReviewBy(service.store, body.userId, body.movieId)
    ensures |Selected(service.store, OfMovie(body.movieId))| <= |Selected(old(service.store), OfMovie(body.movieId))| + 1
    // one review per (userId, movieId) is kept, provided the search saw all of the movie's reviews
    ensures && OnePerPair(old(service.store)) && IdsMatchKeys(old(service.store))
            && |Selected(old(service.store), OfMovie(body.movieId))| <= MAX_RETURNED_RESULTS
            ==> OnePerPair(service.store)
  {
    var cleaned := replaceProfanities(body.comment);
    ghost var before := service.store;
    var reviewsForMovie, keys := service.SearchByMovie(body.movieId);
    var i := FindIndex(reviewsForMovie, ByUser(body.userId));
    if i >= 0 {
      var existing := reviewsForMovie[i];
      assert existing == before[keys[i]];
      var result := service.Update(existing.id, CommentAndRating(cleaned, body.rating));
      match result
      case Success(updated) =>
        response := Response(200, Json(updated));
        assert keys[i] in service.store;
        if keys[i] == existing.id {
          assert service.store[keys[i]] == updated;
        } else {
          assert service.store[keys[i]] == existing;
        }
        SelectedAfterPatch(before, existing.id, updated, body.movieId);
      case Failure(err) =>
        response := ServerError(ADD_FAILED, err);
    } else {
      if |Selected(before, OfMovie(body.movieId))| <= MAX_RETURNED_RESULTS {
        NotFoundMeansAbsent(before, body.movieId, body.userId, reviewsForMovie, keys);
      }
      var created := service.Create(CreateReviewRequest(body.movieId, body.userId, cleaned, body.rating), now);
      response := Response(201, Json(created));
      assert service.store[created.id] == created;
      SelectedAfterInsert(before, created.id, created, body.movieId);
    }
  }

  /**
   * Two submissions for the same user and movie, as when a user reviews a movie and then
   * changes their mind: the store ends up with exactly one review for the pair, carrying the
   * second submission's sanitised comment and rating.
   */
  method SubmitTwice(service: OpenSearchReviewsService, first: AddReviewBody, second: AddReviewBody,
                     replaceProfanities: string -> string, firstTime: string, secondTime: string)
    returns (firstResponse: Response<Review>, secondResponse: Response<Review>)
    requires IdsMatchKeys(service.store) && OnePerPair(service.store)
    requires first.userId == second.userId && first.movieId == second.movieId
    requires |Selected(service.store, OfMovie(first.movieId))| < MAX_RETURNED_RESULTS
    modifies service
    ensures firstResponse.status in {200, 201} && secondResponse.status == 200
    ensures (old(service.Valid()) ==> service.Valid()) && IdsMatchKeys(service.store) && OnePerPair(service.store)
    ensures exists k :: && k in service.store
                        && service.store[k].userId == second.userId && service.store[k].movieId == second.movieId
                        && service.store[k].comment == replaceProfanities(second.comment)
                        && service.store[k].rating == second.rating
  {
    firstResponse := AddDocument(service, first, replaceProfanities, firstTime);
    secondResponse := AddDocument(service, second, replaceProfanities, secondTime);
  }

  /** Rewriting a review without changing its movie leaves the movie's reviews where they were. */
  lemma SelectedAfterPatch(store: map<int, Review>, id: int, r: Review, movieId: int)
    requires id in store && r.movieId == store[id].movieId
    ensures Selected(store[id := r], OfMovie(movieId)) == Selected(store, OfMovie(movieId))
  {
  }

  /** Storing one review adds at most one review to any movie. */
  lemma SelectedAfterInsert(store: map<int, Review>, id: int, r: Review, movieId: int)
    ensures |Selected(store[id := r], OfMovie(movieId))| <= |Selected(store, OfMovie(movieId))| + 1
  {
    var after, before := Selected(store[id := r], OfMovie(movieId)), Selected(store, OfMovie(movieId));
    var bound := before + {id};
    assert after <= bound;
    assert bound == after + (bound - after);
    assert |bound| <= |before| + 1;
  }

  /**
   * When a movie's search came back complete, a user absent from its hits has no review of that
   * movie in the store: the lookup in `addDocument` cannot miss an existing review.
   */
  lemma NotFoundMeansAbsent(store: map<int, Review>, movieId: int, userId: int, hits: seq<Review>, keys: seq<int>)
    requires IsSearchResult(store, OfMovie(movieId), hits, keys)
    requires |Selected(store, OfMovie(movieId))| <= MAX_RETURNED_RESULTS
    requires FindIndex(hits, ByUser(userId)) == -1
    ensures !HasReviewBy(store, userId, movieId)
  {
    forall k | k in store && store[k].movieId == movieId
      ensures store[k].userId != userId
    {
      assert k in Selected(store, OfMovie(movieId));
      var j :| 0 <= j < |keys| && keys[j] == k;
      assert !ByUser(userId)(hits[j]);
    }
  }

  /**
   * `updateDocument`: passes exactly `{ comment, rating }` to `update`, unfiltered. A missing id
   * makes the service throw, which the handler answers with 500.
   */
  method UpdateDocument(service: OpenSearchReviewsService, id: int, comment: string, rating: int)
    returns (response: Response<Review>)
    modifies service
    ensures (old(service.Valid()) ==> service.Valid()) && service.idCounter == old(service.idCounter)
    ensures id in old(service.store) ==>
              && response == Response(200, Json(old(service.store)[id].(comment := comment, rating := rating)))
              && service.store == old(service.store)[id := response.body.value]
    ensures id !in old(service.store) ==>
              response == ServerError(UPDATE_FAILED, DocumentMissing(id)) && service.store == old(service.store)
  {
    var result := service.Update(id, CommentAndRating(comment, rating));
    match result
    case Success(updated) =>
      response := Response(200, Json(updated));
    case Failure(err) =>
      response := ServerError(UPDATE_FAILED, err);
  }

  /** `deleteDocument`: 204 with no body once the review is gone; 500 when the delete throws. */
  method DeleteDocument(service: OpenSearchReviewsService, id: int) returns (response: Response<Review>)
    modifies service
    ensures (old(service.Valid()) ==> service.Valid()) && service.idCounter == old(service.idCounter)
    ensures id in old(service.store) ==>
              response == Response(204, NoContent) && service.store == old(service.store) - {id}
    ensures id !in old(service.store) ==>
              response == ServerError(DELETE_FAILED, DocumentMissing(id)) && service.store == old(service.store)
  {
    var result := service.Delete(id);
    if result.Success? {
      response := Response(204, NoContent);
    } else {
      response := ServerError(DELETE_FAILED, result.error);
    }
  }
}
