/**
 * `OpenSearchMovieService` (review-server/server/api/services/opensearchMovie.service.ts): the
 * movies collection as a map from document key to movie, with the in-memory id counter.
 */
module MovieService {
  import opened Options
  import opened DocStore

  /** A stored movie; `rating` is optional and a float. */
  datatype Movie = Movie(
    id: int, title: string, director: string, releaseDate: string,
    genre: string, description: string, rating: Option<real>)

  /**
   * The body `addMovie` hands to `create`: the declared fields, plus the extra ones a client may
   * send along (an `id`, `tags`, `recommended_by`), which `create` does not copy.
   */
  datatype CreateMovieRequest = CreateMovieRequest(
    title: string, director: string, releaseDate: string, genre: string, description: string,
    rating: Option<real>, id: Option<int>, tags: seq<string>, recommendedBy: Option<string>)

  /** `Partial<Movie>`: `None` is a key the object does not carry. */
  datatype MoviePatch = MoviePatch(
    id: Option<int>, title: Option<string>, director: Option<string>, releaseDate: Option<string>,
    genre: Option<string>, description: Option<string>, rating: Option<real>)

  function IdOf(m: Movie): int { m.id }

  /** The query `term: { director }` on a keyword field: exact equality. */
  function ByDirector(director: string): Movie -> bool { (m: Movie) => m.director == director }

  /** The shallow merge `{ ...existing, ...partial }`. */
  function Merge(existing: Movie, partial: MoviePatch): (r: Movie)
    ensures r.id == (if partial.id.Some? then partial.id.value else existing.id)
    ensures r.title == (if partial.title.Some? then partial.title.value else existing.title)
    ensures r.director == (if partial.director.Some? then partial.director.value else existing.director)
    ensures r.releaseDate == (if partial.releaseDate.Some? then partial.releaseDate.value else existing.releaseDate)
    ensures r.genre == (if partial.genre.Some? then partial.genre.value else existing.genre)
    ensures r.description == (if partial.description.Some? then partial.description.value else existing.description)
    ensures r.rating == (if partial.rating.Some? then partial.rating else existing.rating)
  {
    Movie(
      partial.id.GetOr(existing.id), partial.title.GetOr(existing.title),
      partial.director.GetOr(existing.director), partial.releaseDate.GetOr(existing.releaseDate),
      partial.genre.GetOr(existing.genre), partial.description.GetOr(existing.description),
      if partial.rating.Some? then partial.rating else existing.rating)
  }

  /** Every stored movie's `id` field names the key it is stored under. */
  ghost predicate IdsMatchKeys(store: map<int, Movie>) {
    forall k :: k in store ==> store[k].id == k
  }

  class OpenSearchMovieService {
    var store: map<int, Movie>
    var idCounter: int

    /** Every stored key lies below the counter, so `create` never reuses one. */
    ghost predicate Valid()
      reads this
    {
      forall k :: k in store ==> k < idCounter
    }

    /**
     * `new`: the service over the movies already in the index. The counter starts at 1; the
     * constructor starts `initializeIndex` without awaiting it, so requests can be served before
     * the counter is seeded.
     */
    constructor (documents: map<int, Movie>)
      ensures store == documents && idCounter == 1
    {
      store, idCounter := documents, 1;
    }

    /**
     * The end of `initializeIndex`: when the max-aggregation over the `id` field answers, the
     * counter is seeded from the stored `id` fields; when it throws, the error is only logged and
     * the counter keeps its value.
     */
    method InitializeIndex(aggregationAnswers: bool)
      modifies this
      ensures store == old(store)
      ensures aggregationAnswers ==> IsSeededFrom(IdFields(store, IdOf), idCounter)
      ensures !aggregationAnswers ==> idCounter == old(idCounter)
      ensures aggregationAnswers && IdsMatchKeys(store) ==> Valid()
    {
      if aggregationAnswers {
        idCounter := SeedCounter(IdFields(store, IdOf));
        if IdsMatchKeys(store) {
          SeededCounterAboveKeys(store, IdOf, idCounter);
        }
      }
    }

    /**
     * `create`: the movie takes the counter's value as id (post-increment), whatever id the request
     * carries, and copies exactly the six declared fields. It is indexed under that id, replacing
     * any movie already stored there; the key is fresh only while `Valid()` holds.
     */
    method Create(request: CreateMovieRequest) returns (movie: Movie)
      modifies this
      ensures old(Valid()) ==> Valid()
      ensures movie == Movie(old(idCounter), request.title, request.director, request.releaseDate,
                             request.genre, request.description, request.rating)
      ensures idCounter == old(idCounter) + 1
      ensures old(Valid()) ==> movie.id !in old(store)
      ensures store == old(store)[movie.id := movie]
    {
      movie := Movie(idCounter, request.title, request.director, request.releaseDate,
                     request.genre, request.description, request.rating);
      idCounter := idCounter + 1;
      store := store[movie.id := movie];
    }

    /**
     * `update`: the merge of `partial` over the stored movie, written back under the key `id`
     * even when `partial` carries another `id` field.
     */
    method Update(id: int, partial: MoviePatch) returns (result: Result<Movie, ServiceError>)
      modifies this
      ensures (old(Valid()) ==> Valid()) && idCounter == old(idCounter)
      ensures id in old(store) ==>
                result == Success(Merge(old(store)[id], partial)) && store == old(store)[id := result.value]
      ensures id !in old(store) ==> result == Failure(DocumentMissing(id)) && store == old(store)
    {
      if id !in store {
        return Failure(DocumentMissing(id));
      }
      var updated := Merge(store[id], partial);
      store := store[id := updated];
      result := Success(updated);
    }

    /** `delete`: removes the document under `id`; deleting an absent key throws. */
    method Delete(id: int) returns (result: Result<(), ServiceError>)
      modifies this
      ensures (old(Valid()) ==> Valid()) && idCounter == old(idCounter)
      ensures id in old(store) ==> result.Success? && store == old(store) - {id}
      ensures id !in old(store) ==> result == Failure(DocumentMissing(id)) && store == old(store)
    {
      if id !in store {
        return Failure(DocumentMissing(id));
      }
      store := store - {id};
      result := Success(());
    }

    /** `searchByDirector(director)`: a `term` search on the keyword field `director`. */
    method SearchByDirector(director: string) returns (hits: seq<Movie>, ghost keys: seq<int>)
      ensures IsSearchResult(store, ByDirector(director), hits, keys)
      ensures |hits| <= MAX_RETURNED_RESULTS
      ensures forall i :: 0 <= i < |hits| ==> hits[i] in store.Values && hits[i].director == director
    {
      hits, keys := Search(store, ByDirector(director));
    }
  }

  /** An update that leaves the `id` field alone keeps every movie's `id` equal to its key. */
  lemma UpdateKeepsIds(store: map<int, Movie>, id: int, partial: MoviePatch)
    requires IdsMatchKeys(store) && id in store && partial.id.None?
    ensures IdsMatchKeys(store[id := Merge(store[id], partial)])
  {
  }

  /**
   * An update whose body carries a different `id` field breaks that correspondence, and the
   * counter seeded from the `id` fields at the next start can then be an occupied key. With
   * movies 1 and 2 stored and movie 2 updated with `{ id: 1 }`, the counter restarts at 2.
   */
  lemma IdOverrideThenRestart(m1: Movie, m2: Movie, counter: int)
    requires m1.id == 1 && m2.id == 2
    requires IsSeededFrom(IdFields(map[1 := m1, 2 := Merge(m2, MoviePatch(Some(1), None, None, None, None, None, None))], IdOf), counter)
    ensures counter == 2
  {
    var after := map[1 := m1, 2 := Merge(m2, MoviePatch(Some(1), None, None, None, None, None, None))];
    assert IdFields(after, IdOf) == {1} by {
      assert IdOf(after[1]) == 1 && IdOf(after[2]) == 1;
      assert after.Keys == {1, 2};
    }
  }

  /**
   * The whole sequence as the server runs it: movies 1 and 2 are stored and the counter seeded;
   * movie 2 is updated with `{ id: 1 }`; the server restarts and seeds the counter again, at 2;
   * the next `create` is indexed under key 2 and replaces the updated movie, so the number of
   * movies does not grow.
   */
  method UpdateIdThenRestartThenCreate(m1: Movie, m2: Movie, request: CreateMovieRequest)
    returns (beforeCreate: map<int, Movie>, afterCreate: map<int, Movie>, created: Movie)
    requires m1.id == 1 && m2.id == 2
    ensures beforeCreate.Keys == {1, 2} && beforeCreate[2].id == 1
    ensures created.id == 2 && afterCreate == beforeCreate[2 := created]
    ensures |afterCreate| == |beforeCreate|
  {
    var running := new OpenSearchMovieService(map[1 := m1, 2 := m2]);
    running.InitializeIndex(true);
    var patch := MoviePatch(Some(1), None, None, None, None, None, None);
    var updated := running.Update(2, patch);
    assert running.store == map[1 := m1, 2 := Merge(m2, patch)];
    var restarted := new OpenSearchMovieService(running.store);
    restarted.InitializeIndex(true);
    IdOverrideThenRestart(m1, m2, restarted.idCounter);
    beforeCreate := restarted.store;
    created := restarted.Create(request);
    afterCreate := restarted.store;
  }
}
