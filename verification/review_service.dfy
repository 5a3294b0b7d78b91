/**
 * `OpenSearchReviewsService` (review-server/server/api/services/opensearchReview.service.ts):
 * the reviews collection as a map from document key to review, with the in-memory id counter.
 */
module ReviewService {
  import opened Options
  import opened DocStore

  /** A stored review; `date` is the ISO timestamp of its creation. */
  datatype Review = Review(id: int, movieId: int, userId: int, comment: string, rating: int, date: string)

  datatype CreateReviewRequest = CreateReviewRequest(movieId: int, userId: int, comment: string, rating: int)

  /** `Partial<Review>`: `None` is a key the object does not carry. */
  datatype ReviewPatch = ReviewPatch(
    id: Option<int>, movieId: Option<int>, userId: Option<int>,
    comment: Option<string>, rating: Option<int>, date: Option<string>)

  function IdOf(r: Review): int { r.id }

  /** The query `term: { movieId }`. */
  function OfMovie(movieId: int): Review -> bool { (r: Review) => r.movieId == movieId }

  /** The query `term: { userId }`. */
  function ByUser(userId: int): Review -> bool { (r: Review) => r.userId == userId }

  /** The query `match_all`. */
  function AnyReview(r: Review): bool { true }

  /**
   * The shallow merge `{ ...existing, ...partial }`: a field present in the patch overrides the
   * stored one; every other field is kept.
   */
  function Merge(existing: Review, partial: ReviewPatch): (r: Review)
    ensures r.id == (if partial.id.Some? then partial.id.value else existing.id)
    ensures r.movieId == (if partial.movieId.Some? then partial.movieId.value else existing.movieId)
    ensures r.userId == (if partial.userId.Some? then partial.userId.value else existing.userId)
    ensures r.comment == (if partial.comment.Some? then partial.comment.value else existing.comment)
    ensures r.rating == (if partial.rating.Some? then partial.rating.value else existing.rating)
    ensures r.date == (if partial.date.Some? then partial.date.value else existing.date)
  {
    Review(
      partial.id.GetOr(existing.id), partial.movieId.GetOr(existing.movieId),
      partial.userId.GetOr(existing.userId), partial.comment.GetOr(existing.comment),
      partial.rating.GetOr(existing.rating), partial.date.GetOr(existing.date))
  }

  /** Applying the same patch twice is applying it once. */
  lemma MergeIdempotent(existing: Review, partial: ReviewPatch)
    ensures Merge(Merge(existing, partial), partial) == Merge(existing, partial)
  {
  }

  /** Every stored review's `id` field names the key it is stored under. */
  ghost predicate IdsMatchKeys(store: map<int, Review>) {
    forall k :: k in store ==> store[k].id == k
  }

  /** At most one review per (userId, movieId) pair. */
  ghost predicate OnePerPair(store: map<int, Review>) {
    forall k1, k2 ::
      (k1 in store && k2 in store && store[k1].userId == store[k2].userId
       && store[k1].movieId == store[k2].movieId) ==> k1 == k2
  }

  /** Some stored review is by `userId` about `movieId`. */
  ghost predicate HasReviewBy(store: map<int, Review>, userId: int, movieId: int) {
    exists k :: k in store && store[k].userId == userId && store[k].movieId == movieId
  }

  class OpenSearchReviewsService {
    var store: map<int, Review>
    var idCounter: int

    /** Every stored key lies below the counter, so `create` never reuses one. */
    ghost predicate Valid()
      reads this
    {
      forall k :: k in store ==> k < idCounter
    }

    /**
     * `new`: the service over the documents already in the index. The counter starts at 1; the
     * constructor starts `initializeIndex` without awaiting it, so requests can be served before
     * the counter is seeded.
     */
    constructor (documents: map<int, Review>)
      ensures store == documents && idCounter == 1
    {
      store, idCounter := documents, 1;
    }

    /**
     * The end of `initializeIndex`: when the max-aggregation over the `id` field answers, the
     * counter is seeded from the stored `id` fields; when it throws, the error is only logged and
     * the counter keeps its value.
     */
    method InitializeIndex(aggregationAnswers: bool)
      modifies this
      ensures store == old(store)
      ensures aggregationAnswers ==> IsSeededFrom(IdFields(store, IdOf), idCounter)
      ensures !aggregationAnswers ==> idCounter == old(idCounter)
      ensures aggregationAnswers && IdsMatchKeys(store) ==> Valid()
    {
      if aggregationAnswers {
        idCounter := SeedCounter(IdFields(store, IdOf));
        if IdsMatchKeys(store) {
          SeededCounterAboveKeys(store, IdOf, idCounter);
        }
      }
    }

    /** `all()`: a `match_all` search. */
    method All() returns (hits: seq<Review>, ghost keys: seq<int>)
      ensures IsSearchResult(store, AnyReview, hits, keys)
      ensures |hits| <= MAX_RETURNED_RESULTS
      ensures forall i :: 0 <= i < |hits| ==> hits[i] in store.Values
    {
      hits, keys := Search(store, AnyReview);
    }

    /** `searchByUser(userId)`: a `term` search on `userId`. */
    method SearchByUser(userId: int) returns (hits: seq<Review>, ghost keys: seq<int>)
      ensures IsSearchResult(store, ByUser(userId), hits, keys)
      ensures |hits| <= MAX_RETURNED_RESULTS
      ensures forall i :: 0 <= i < |hits| ==> hits[i] in store.Values && hits[i].userId == userId
    {
      hits, keys := Search(store, ByUser(userId));
    }

    /** `searchByMovie(movieId)`: a `term` search on `movieId`. */
    method SearchByMovie(movieId: int) returns (hits: seq<Review>, ghost keys: seq<int>)
      ensures IsSearchResult(store, OfMovie(movieId), hits, keys)
      ensures |hits| <= MAX_RETURNED_RESULTS
      ensures forall i :: 0 <= i < |hits| ==> hits[i] in store.Values && hits[i].movieId == movieId
    {
      hits, keys := Search(store, OfMovie(movieId));
    }

    /**
     * `create`: the review takes the counter's value as id (post-increment) and the request's
     * fields, and is indexed under that id, replacing any document already stored there. The key
     * is fresh only while `Valid()` holds.
     */
    method Create(request: CreateReviewRequest, now: string) returns (review: Review)
      modifies this
      ensures old(Valid()) ==> Valid()
      ensures review.id == old(idCounter) && idCounter == old(idCounter) + 1
      ensures old(Valid()) ==> review.id !in old(store)
      ensures review == Review(review.id, request.movieId, request.userId, request.comment, request.rating, now)
      ensures store == old(store)[review.id := review]
    {
      var id := idCounter;
      idCounter := idCounter + 1;
      review := Review(id, request.movieId, request.userId, request.comment, request.rating, now);
      store := store[id := review];
    }

    /**
     * `update`: the merge of `partial` over the stored review, written back under the same key.
     * Reading an absent key throws in `byId`, which `update` rethrows; nothing is written then.
     */
    method Update(id: int, partial: ReviewPatch) returns (result: Result<Review, ServiceError>)
      modifies this
      ensures (old(Valid()) ==> Valid()) && idCounter == old(idCounter)
      ensures id in old(store) ==>
                result == Success(Merge(old(store)[id], partial)) && store == old(store)[id := result.value]
      ensures id !in old(store) ==> result == Failure(DocumentMissing(id)) && store == old(store)
    {
      if id !in store {
        return Failure(DocumentMissing(id));
      }
      var updated := Merge(store[id], partial);
      store := store[id := updated];
      result := Success(updated);
    }

    /** `delete`: removes the document under `id`; deleting an absent key throws. */
    method Delete(id: int) returns (result: Result<(), ServiceError>)
      modifies this
      ensures (old(Valid()) ==> Valid()) && idCounter == old(idCounter)
      ensures id in old(store) ==> result.Success? && store == old(store) - {id}
      ensures id !in old(store) ==> result == Failure(DocumentMissing(id)) && store == old(store)
    {
      if id !in store {
        return Failure(DocumentMissing(id));
      }
      store := store - {id};
      result := Success(());
    }
  }

  /**
   * When the max-aggregation throws, the counter stays at 1, and the first `create` is indexed
   * under key 1, replacing the review stored there: the number of reviews does not grow.
   */
  method UnseededCreateReplaces(existing: Review, request: CreateReviewRequest, now: string)
    returns (before: map<int, Review>, after: map<int, Review>, created: Review)
    ensures 1 in before && before[1] == existing
    ensures created.id == 1 && after == before[1 := created]
    ensures |after| == |before|
  {
    var service := new OpenSearchReviewsService(map[1 := existing]);
    service.InitializeIndex(false);
    before := service.store;
    created := service.Create(CreateReviewRequest(request.movieId, request.userId, request.comment, request.rating), now);
    after := service.store;
  }
}
