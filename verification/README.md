# MovieReviewApp core, modelled in Dafny

MovieReviewApp is a small movie-review site with an Express server and a React client.
The server keeps reviews, users and movies in three search-engine collections. This project
models the parts of it that hold the application's logic:

- **The three repository services.** `OpenSearchReviewsService`, `OpenSearchUsersService` and
  `OpenSearchMovieService` are classes. Each holds its collection as a map from document key to
  document, plus the in-memory id counter. The counter starts at 1, is seeded from the largest
  stored `id` once the start-up aggregation answers, and is post-incremented by `create`. `update` is a shallow merge written back under
  the same key. `delete` removes one key. The searches are capped at `MAX_RETURNED_RESULTS` (1000).
- **The review and user controllers.**
  - `addDocument` is the review upsert: at most one review per (user, movie).
  - `updateDocument` and `deleteDocument` map service results to status codes.
  - `loginUser` finds a user case-insensitively, or creates one with a synthesised email.
  - `updateUser` maps the service result to a status code.
- **The client's list computations.**
  - The home page's replace-or-append reducer and its user-id fallback.
  - The rankings aggregation: group by movie, count, sum, average, sort descending, podium.
  - The stats panel's likes, dislikes and ratio.
  - The good-reviews and bad-reviews filters.
  - The review roulette: the movie filter, the initial selection, the visible window, the
    offset clamp and snap, and the comment preview.

The search engine is a map; what a query returns is specified, not its order (`DocStore`). The
profanity filter and the clock are parameters of `AddDocument`. Every request is processed on
its own, one after another.

Files, one module each unless noted: `options.dfy` (Option, Result), `seqs.dfy` (`filter`,
`findIndex`), `doc_store.dfy` (search, max aggregation, counter seeding), `http.dfy` (responses),
`review_service.dfy`, `reviews_controller.dfy`, `user_service.dfy`, `users_controller.dfy` (also
module `LoginExamples`), `movie_service.dfy`, `client_types.dfy`, `home.dfy`, `rankings.dfy`,
`stats_view.dfy`, `good_reviews.dfy`, `bad_reviews.dfy`, `review_roulette.dfy`.

## Model

| member | source | states |
|---|---|---|
| DocStore.Search | review-server/server/api/services/opensearchReview.service.ts:116-129 | Hits are stored documents that match, each document at most once. Their number is min(matches, 1000), and every match is returned when 1000 or fewer match. |
| DocStore.MaxAggregation | review-server/server/api/services/opensearchReview.service.ts:72-87 | The `max` aggregation over the ids: none exactly for an empty collection, otherwise a member of the ids that no id exceeds. |
| DocStore.CounterFrom | review-server/server/api/services/opensearchReview.service.ts:89-90 | `(value \|\| 0) + 1`: 1 for a missing or zero maximum, otherwise the maximum plus one; above any non-negative maximum. |
| DocStore.SeedCounter | review-server/server/api/services/opensearchReview.service.ts:88-90 | `(max \|\| 0) + 1`: 1 on an empty collection, otherwise the largest id plus one, above every id. |
| DocStore.SeededCounterAboveKeys | review-server/server/api/services/opensearchReview.service.ts:88-90 | When every document's `id` equals its key, a seeded counter is above every key, so the next `create` takes a fresh key. |
| ReviewService.Merge | review-server/server/api/services/opensearchReview.service.ts:237 | `{ ...existing, ...partial }`: each of the six fields comes from the patch when the patch has it, else from the stored review, so fields the patch lacks (id, date, …) are kept. |
| ReviewService.MergeIdempotent | review-server/server/api/services/opensearchReview.service.ts:237 | Merging the same patch twice equals merging it once. |
| ReviewService.OpenSearchReviewsService.constructor | review-server/server/api/services/opensearchReview.service.ts:38-44 | The store is the existing documents and the counter is 1: seeding runs later, not awaited. |
| ReviewService.OpenSearchReviewsService.InitializeIndex | review-server/server/api/services/opensearchReview.service.ts:71-94 | When the aggregation answers, the counter is seeded from the stored ids, and the key invariant holds when ids match keys. When it throws, only a log line: the counter is unchanged. The store is untouched. |
| ReviewService.UnseededCreateReplaces | review-server/server/api/services/opensearchReview.service.ts:147-169 | With the counter left at 1 by the constructor (line 40) and the aggregation failed (lines 92-94), the first `create` takes key 1 and replaces the review stored there; the number of reviews does not grow. |
| ReviewService.OpenSearchReviewsService.All | review-server/server/api/services/opensearchReview.service.ts:116-129 | A capped `match_all` search: at most 1000 stored reviews, all of them when there are no more. |
| ReviewService.OpenSearchReviewsService.SearchByUser | review-server/server/api/services/opensearchReview.service.ts:172-187 | Only stored reviews with that `userId`, at most 1000, and all of them when 1000 or fewer exist. |
| ReviewService.OpenSearchReviewsService.SearchByMovie | review-server/server/api/services/opensearchReview.service.ts:189-202 | Only stored reviews with that `movieId`, at most 1000, and all of them when 1000 or fewer exist. |
| ReviewService.OpenSearchReviewsService.Create | review-server/server/api/services/opensearchReview.service.ts:147-169 | The id is the counter before the call and the counter grows by one. The request's four fields and `now` are copied. The review is stored under its id, replacing any review there, and nothing else changes. Under the key invariant the id was not in the store and the invariant is kept. |
| ReviewService.OpenSearchReviewsService.Update | review-server/server/api/services/opensearchReview.service.ts:228-253 | An existing review becomes the merge and is stored under the same key, nothing else changes. An absent id fails with "not found" and writes nothing. The key invariant is kept. |
| ReviewService.OpenSearchReviewsService.Delete | review-server/server/api/services/opensearchReview.service.ts:258-270 | Exactly the key `id` is removed and every other review is kept. An absent id fails (the engine's 404) and nothing changes. The key invariant is kept. |
| ReviewsController.AddDocument | review-server/server/api/controllers/reviews/reviewsController.ts:35-58 | Status is 200, 201 or 500. With no review by the pair it is 201 with the counter as id and the sanitised comment; the id is fresh under the key invariant, which is kept. With one (among at most 1000) it is 200, patching comment and rating of the document that the found review's `id` field names; while every review's `id` equals its key, that is the found review itself. 500 (the `id` names no stored review) never happens while ids match keys, and on 500 neither the store nor the counter changes. One review per (user, movie) is preserved. The movie's review count grows by at most one. |
| ReviewsController.SubmitTwice | review-server/server/api/controllers/reviews/reviewsController.ts:35-58 | Submitting twice for one (user, movie) answers 201 or 200, then 200, and leaves exactly one review of the pair, holding the second submission's sanitised comment and rating. |
| ReviewsController.SelectedAfterPatch | review-server/server/api/controllers/reviews/reviewsController.ts:48 | Patching a review without changing its movie keeps the set of the movie's reviews. |
| ReviewsController.SelectedAfterInsert | review-server/server/api/controllers/reviews/reviewsController.ts:52 | Storing one review adds at most one to a movie's reviews. |
| ReviewsController.NotFoundMeansAbsent | review-server/server/api/controllers/reviews/reviewsController.ts:43-46 | When the complete search for the movie finds no review by the user, the store holds none. |
| ReviewsController.UpdateDocument | review-server/server/api/controllers/reviews/reviewsController.ts:64-78 | An existing id gives 200 with the review whose comment and rating are replaced. An absent id gives 500 "Failed to update review" and nothing changes. |
| ReviewsController.DeleteDocument | review-server/server/api/controllers/reviews/reviewsController.ts:83-92 | An existing id gives 204 with no body and removes exactly that review. An absent id gives 500 "Failed to delete review" and nothing changes. |
| UserService.Merge | review-server/server/api/services/opensearchUsers.service.ts:157 | `{ ...existing, ...partial }` over the request body as sent: id, name and email each come from the patch when present, else from the stored user, so an `id` in the body overrides the stored one. |
| UserService.UpdateKeepsIds | review-server/server/api/services/opensearchUsers.service.ts:151-170 | An update whose body has no `id` keeps every user's id equal to its key. |
| UserService.OpenSearchUsersService.constructor | review-server/server/api/services/opensearchUsers.service.ts:31-37 | The store is the existing users and the counter is 1 until seeding. |
| UserService.OpenSearchUsersService.InitializeIndex | review-server/server/api/services/opensearchUsers.service.ts:59-83 | The counter is seeded from the stored ids when the aggregation answers and unchanged when it throws. |
| UserService.UpdateIdThenRestartThenCreate | review-server/server/api/services/opensearchUsers.service.ts:134-170 | `PUT /users/2` with `{ id: 1 }`, a restart, then a `create`: the new user takes key 2 and replaces the updated user; the number of users does not grow. |
| UserService.OpenSearchUsersService.All | review-server/server/api/services/opensearchUsers.service.ts:103-116 | A capped `match_all` search over the users. |
| UserService.OpenSearchUsersService.Create | review-server/server/api/services/opensearchUsers.service.ts:134-148 | The user is (old counter, name, email), stored under that key, replacing any user there; the counter grows by one. Under the key invariant the key is fresh and the invariant is kept. |
| UserService.OpenSearchUsersService.Update | review-server/server/api/services/opensearchUsers.service.ts:151-170 | An existing user becomes the merge, stored under the key `id` even when the merge carries another id. An absent id fails and writes nothing. The key invariant is kept. |
| UserService.OpenSearchUsersService.Delete | review-server/server/api/services/opensearchUsers.service.ts:173-185 | Exactly that key is removed. An absent id fails and nothing changes. The key invariant is kept. |
| UsersController.LowerChar | review-server/server/api/controllers/users/usersController.ts:75 | `toLowerCase` on one character: never upper case, whitespace is kept, non-letters are unchanged. |
| UsersController.LowerAscii | review-server/server/api/controllers/users/usersController.ts:75 | Same length, lower-cased position by position. |
| UsersController.EmailFor | review-server/server/api/controllers/users/usersController.ts:81 | The synthesised email ends with "@example.com" and is never longer than the name plus the domain. |
| UsersController.DotRuns | review-server/server/api/controllers/users/usersController.ts:81 | `replace(/\s+/g, '.')` leaves no whitespace and never lengthens the name. |
| UsersController.EmailShape | review-server/server/api/controllers/users/usersController.ts:81 | A synthesised email ends with "@example.com" and has no whitespace and no upper-case letter. |
| UsersController.DotRunsWithoutSpaces | review-server/server/api/controllers/users/usersController.ts:81 | A name without whitespace is not changed by the replacement. |
| UsersController.DropSpacesLower | review-server/server/api/controllers/users/usersController.ts:81 | Dropping leading whitespace commutes with lower-casing. |
| UsersController.DotRunsLower | review-server/server/api/controllers/users/usersController.ts:81 | Replacing whitespace runs commutes with lower-casing. |
| UsersController.SameEmailForSameName | review-server/server/api/controllers/users/usersController.ts:75-81 | Names that match case-insensitively get the same email. |
| UsersController.DotRunsWord | review-server/server/api/controllers/users/usersController.ts:81 | A word without whitespace passes through in front of the rest. |
| UsersController.DropSpacesRun | review-server/server/api/controllers/users/usersController.ts:81 | A whole whitespace run in front of a word is consumed. |
| UsersController.DotRunsRun | review-server/server/api/controllers/users/usersController.ts:81 | A maximal whitespace run becomes one dot whatever follows; with `DotRunsWord` this fixes the replacement on every name. |
| UsersController.DotRunsWordRun | review-server/server/api/controllers/users/usersController.ts:81 | A word and the maximal run after it become the word and one dot. |
| UsersController.DotRunsThreeWords | review-server/server/api/controllers/users/usersController.ts:81 | Three words separated by two whitespace runs are joined by two dots. |
| UsersController.DotRunsJoin | review-server/server/api/controllers/users/usersController.ts:81 | Two words separated by any non-empty whitespace run are joined by exactly one ".". |
| UsersController.LowerAsciiOf | review-server/server/api/controllers/users/usersController.ts:81 | Lower-casing equals a string that agrees at every position. |
| UsersController.TwoWordEmail | review-server/server/api/controllers/users/usersController.ts:81 | The email of "first run second" is lower(first) + "." + lower(second) + "@example.com". |
| UsersController.LowerAsciiJoin | review-server/server/api/controllers/users/usersController.ts:81 | Lower-casing distributes over a dot join. |
| UsersController.LowerAsciiConcat | review-server/server/api/controllers/users/usersController.ts:81 | Lower-casing distributes over concatenation. |
| UsersController.LoginUser | review-server/server/api/controllers/users/usersController.ts:67-90 | The status is 400 exactly when the name is missing or empty, and then nothing changes. 200 returns a stored user whose name matches case-insensitively and changes nothing. 201 creates (old counter, name, synthesised email) under the counter's key, and only when no stored user matched (or more than 1000 users are stored); the key is fresh under the key invariant, which is kept. Afterwards some user matches. Unique names are preserved. |
| UsersController.NotFoundMeansNoUser | review-server/server/api/controllers/users/usersController.ts:74-79 | When the complete user list has no match, no stored user matches. |
| UsersController.UniqueAfterCreate | review-server/server/api/controllers/users/usersController.ts:82-84 | Storing a user whose name matches no one keeps names unique, at a fresh key or over an existing one. |
| UsersController.LoginTwice | review-server/server/api/controllers/users/usersController.ts:67-90 | With unique names and fewer than 1000 users, logging in twice with case-variants of one name answers 200 the second time with the same user as the first. |
| UsersController.UniqueNamesSameUser | review-server/server/api/controllers/users/usersController.ts:75 | Under unique names, two users that both match one name are the same user. |
| UsersController.UpdateUser | review-server/server/api/controllers/users/usersController.ts:41-54 | The whole body is the patch. An existing id gives 200 with the merged user, stored under that id. An absent id gives 500 "Failed to update user" and nothing changes. |
| LoginExamples.BobSmithDotted | review-server/server/api/controllers/users/usersController.ts:81 | "Bob Smith" becomes "Bob.Smith": one space between two words becomes one dot. |
| LoginExamples.AnnLeeDotted | review-server/server/api/controllers/users/usersController.ts:81 | "Ann \t Lee" becomes "Ann.Lee": a run of mixed whitespace becomes one dot. |
| LoginExamples.MaryAnnLeeDotted | review-server/server/api/controllers/users/usersController.ts:81 | "Mary Ann  Lee" becomes "Mary.Ann.Lee": each of two runs becomes its own dot. |
| LoginExamples.PaddedNameDotted | review-server/server/api/controllers/users/usersController.ts:81 | "  Bob " becomes ".Bob.": leading and trailing runs each become a dot. |
| LoginExamples.BobSmithEmail | review-server/server/api/controllers/users/usersController.ts:81 | "Bob Smith" logs in as "bob.smith@example.com". |
| LoginExamples.AnnLeeEmail | review-server/server/api/controllers/users/usersController.ts:81 | "Ann \t Lee" logs in as "ann.lee@example.com". |
| LoginExamples.AliceMatchesAlice | review-server/server/api/controllers/users/usersController.ts:75 | "Alice" and "alice" lower-case to the same name, "alice". |
| MovieService.Merge | review-server/server/api/services/opensearchMovie.service.ts:165-188 | Each of the seven fields, `id` included, comes from the patch when present, else from the stored movie. |
| MovieService.OpenSearchMovieService.constructor | review-server/server/api/services/opensearchMovie.service.ts:34-40 | The store is the existing movies and the counter is 1 until seeding. |
| MovieService.OpenSearchMovieService.InitializeIndex | review-server/server/api/services/opensearchMovie.service.ts:67-91 | The counter is seeded from the stored ids when the aggregation answers and unchanged when it throws. |
| MovieService.OpenSearchMovieService.Create | review-server/server/api/services/opensearchMovie.service.ts:143-162 | The movie takes the counter as id, whatever id the request carries. It copies exactly title, director, release date, genre, description and rating, and is stored under that key, replacing any movie there. Under the key invariant the key is fresh and the invariant is kept. |
| MovieService.OpenSearchMovieService.Update | review-server/server/api/services/opensearchMovie.service.ts:165-188 | The merge is stored under the key `id`, even when it carries another id. An absent id fails and writes nothing. The key invariant is kept. |
| MovieService.OpenSearchMovieService.Delete | review-server/server/api/services/opensearchMovie.service.ts:191-203 | Exactly that key is removed. An absent id fails and nothing changes. The key invariant is kept. |
| MovieService.OpenSearchMovieService.SearchByDirector | review-server/server/api/services/opensearchMovie.service.ts:222-235 | A `term` query on the keyword field: only movies whose director is exactly that string, capped at 1000. |
| MovieService.UpdateKeepsIds | review-server/server/api/services/opensearchMovie.service.ts:165-188 | An update without an `id` field keeps every movie's id equal to its key. |
| MovieService.IdOverrideThenRestart | review-server/server/api/services/opensearchMovie.service.ts:84-86 | After movie 2 is updated with `{ id: 1 }`, the counter seeded at the next start is 2, the key movie 2 still occupies. |
| MovieService.UpdateIdThenRestartThenCreate | review-server/server/api/services/opensearchMovie.service.ts:143-188 | The same sequence followed by a `create`: the new movie takes key 2 and replaces the updated movie; the number of movies does not grow. |
| Home.DefaultUserId | client/src/pages/home.tsx:12 | `props?.user?.id \|\| 1`: a missing or zero id becomes 1, any other id is kept. |
| Home.ReplaceOrAppend | client/src/pages/home.tsx:27-38 | The new review is in the list. A review with the same id is replaced at its first index and the rest are kept in place. Otherwise the review is appended. |
| Home.ReplaceOrAppendIds | client/src/pages/home.tsx:27-38 | The ids afterwards are the old ids plus the review's. |
| Home.ReplaceOrAppendDistinct | client/src/pages/home.tsx:27-38 | Distinct ids stay distinct. |
| Home.ReplaceOrAppendIdempotent | client/src/pages/home.tsx:27-38 | Handling the same review twice is handling it once. |
| Home.HomePage.constructor | client/src/pages/home.tsx:12-18 | The user id with its fallback and an empty review list. |
| Home.HomePage.SetUser | client/src/pages/home.tsx:54-56 | The effect recomputes the user id with the same fallback and keeps the reviews. |
| Home.HomePage.OnFetchReviews | client/src/pages/home.tsx:44-52 | The fetched list replaces the local one. |
| Home.HomePage.HandleReviewCreatedOrUpdated | client/src/pages/home.tsx:24-42 | A review updates the list by replace-or-append. `null` leaves it and asks for a refetch. |
| Rankings.RecommendedBy | client/src/pages/Rankings/index.tsx:62 | The movie's `recommended_by` when it is a non-empty string, else "Unknown". Never empty. |
| Rankings.MovieIdsPrefix | client/src/pages/Rankings/index.tsx:56-67 | The ids seen grow by the last review's movie id. |
| Rankings.CountPositive | client/src/pages/Rankings/index.tsx:57-65 | A movie has an entry exactly when its count is positive; without an entry its sum is 0. |
| Rankings.TallyByMovie | client/src/pages/Rankings/index.tsx:55-67 | The `forEach` builds one entry per reviewed movie, holding its count, rating sum and recommender. |
| Rankings.TallyStep | client/src/pages/Rankings/index.tsx:57-66 | One review adds one to its movie's count and its rating to the sum, and creates the entry if missing; other movies are unchanged. |
| Rankings.ObjectValues | client/src/pages/Rankings/index.tsx:69 | `Object.values` of integer keys: every entry once, in ascending key order. |
| Rankings.Averaged | client/src/pages/Rankings/index.tsx:69-72 | `rating / reviewCount`: average times count is the sum; other fields are kept. |
| Rankings.SortByRating | client/src/pages/Rankings/index.tsx:73 | Sorted by descending rating and a permutation of the input. |
| Rankings.InsertLeft | client/src/pages/Rankings/index.tsx:73 | One insertion step extends the sorted prefix and permutes the array. |
| Rankings.Swap | client/src/pages/Rankings/index.tsx:73 | Exchanges two entries, a permutation. |
| Rankings.RankReviews | client/src/pages/Rankings/index.tsx:55-73 | One entry per reviewed movie, each its averaged tally, sorted by descending average. |
| Rankings.RankingOfPermutation | client/src/pages/Rankings/index.tsx:73 | Sorting keeps a ranking a ranking: every movie appears once with its own entry. |
| Rankings.DistinctCount | client/src/pages/Rankings/index.tsx:69 | Distinct keys naming every id of a set number exactly as many as the set. |
| Rankings.DistinctAfterPermutation | client/src/pages/Rankings/index.tsx:73 | A permutation of entries with distinct movie ids has distinct movie ids. |
| Rankings.AtMostOnce | client/src/pages/Rankings/index.tsx:73 | An element of a sequence without repeats occurs at most once in its multiset. |
| Rankings.TwiceMeansTwo | client/src/pages/Rankings/index.tsx:73 | Two equal entries at different indices occur at least twice in the multiset. |
| Rankings.CountInAdd | client/src/pages/Rankings/index.tsx:65 | Reviews of a set of movies plus one more movie are counted additively. |
| Rankings.CountInAll | client/src/pages/Rankings/index.tsx:56-67 | Counting the reviews of every reviewed movie counts every review. |
| Rankings.SumCountsByIds | client/src/pages/Rankings/index.tsx:65 | The counts of entries with distinct movie ids add up to the reviews of those movies. |
| Rankings.CountInNothing | client/src/pages/Rankings/index.tsx:65 | No movies, no reviews counted. |
| Rankings.CountsSumToTotal | client/src/pages/Rankings/index.tsx:55-73 | The ranking's review counts add up to the number of reviews fetched. |
| Rankings.SumAbove | client/src/pages/Rankings/index.tsx:66 | If every rating of a movie exceeds x, the sum exceeds count times x. |
| Rankings.SumBelow | client/src/pages/Rankings/index.tsx:66 | If every rating of a movie is below x, the sum is below count times x. |
| Rankings.AverageWithinRatings | client/src/pages/Rankings/index.tsx:69-72 | A movie's average lies between its lowest and its highest rating. |
| Rankings.PodiumOf | client/src/pages/Rankings/index.tsx:84-87 | A podium exactly when there are at least three rankings: entries 0, 1 and 2. |
| Rankings.PodiumIsTopThree | client/src/pages/Rankings/index.tsx:84-87 | On a sorted ranking the podium is in descending order and no other entry beats third place. |
| StatsView.LikeRatio | client/src/components/StatsView/index.tsx:24 | The ratio is in [0, 1]; 0 with no reviews, else ratio times total is the likes. |
| StatsView.StatsFor | client/src/components/StatsView/index.tsx:10-24 | The prompt exactly when no movie is selected. Otherwise likes are ratings ≥ 5 and dislikes ratings < 5, adding up to all reviews, and the ratio is the likes' share. |
| GoodReviews.GoodList | client/src/components/GoodReviews/index.tsx:10 | Exactly the reviews rated above 5. |
| GoodReviews.GoodListConcat | client/src/components/GoodReviews/index.tsx:10 | The filter commutes with concatenation, so input order is kept. |
| GoodReviews.GoodPanel | client/src/components/GoodReviews/index.tsx:15 | The empty-state message exactly when no review is rated above 5, else the good list's cards. |
| BadReviews.BadList | client/src/components/BadReviews/index.tsx:10 | Exactly the reviews rated below 5, filtered with the stats' dislike predicate (client/src/components/StatsView/index.tsx:21), so the dislike count is the bad list's length. |
| BadReviews.BadListConcat | client/src/components/BadReviews/index.tsx:10 | The filter commutes with concatenation, so input order is kept. |
| BadReviews.BadPanel | client/src/components/BadReviews/index.tsx:15 | The empty-state message exactly when no review is rated below 5, else the bad list's cards. |
| BadReviews.GoodAndBadDisjoint | client/src/components/BadReviews/index.tsx:10 | No review is both good and bad; a rating of 5 is in neither list. |
| BadReviews.LikesIncludeFives | client/src/components/StatsView/index.tsx:20 | The likes are the good list plus the reviews rated exactly 5. |
| Seqs.Filter | client/src/components/GoodReviews/index.tsx:10 | `filter`: only kept elements, every kept element, never longer. |
| Seqs.FilterConcat | client/src/components/GoodReviews/index.tsx:10 | Filtering commutes with concatenation. |
| Seqs.FilterSplit | client/src/components/StatsView/index.tsx:20 | Two disjoint predicates covering a third split its filtered length. |
| Seqs.FilterComplement | client/src/components/StatsView/index.tsx:20-22 | Complementary filters share out every element. |
| Seqs.FindIndex | client/src/components/ReviewRoulette/index.tsx:38 | `findIndex`: -1 exactly when no element matches, else the first match. |
| ReviewRoulette.Round | client/src/components/ReviewRoulette/index.tsx:74 | `Math.round`: within half of x, halves rounded up. |
| ReviewRoulette.SnapIndex | client/src/components/ReviewRoulette/index.tsx:158 | The index whose position is within half a spacing of the offset; never negative for a non-negative offset. |
| ReviewRoulette.SnapIndexInBounds | client/src/components/ReviewRoulette/index.tsx:158-160 | An offset inside the wheel snaps to an existing review. |
| ReviewRoulette.ClampOffset | client/src/components/ReviewRoulette/index.tsx:63-70 | The result lies in [0, (n−1)·100]; inside that range the offset is kept, below it 0, above it the maximum. |
| ReviewRoulette.CommentPreview | client/src/components/ReviewRoulette/index.tsx:281 | The comment when it has at most 100 characters, else its first 100 characters and "...". |
| ReviewRoulette.CommentPreviewIdempotent | client/src/components/ReviewRoulette/index.tsx:281 | Previewing a preview changes nothing. |
| ReviewRoulette.ReviewRoulette.constructor | client/src/components/ReviewRoulette/index.tsx:13-18 | Offset 0, not dragging, no reviews, index 0. |
| ReviewRoulette.ReviewRoulette.FetchMovieReviews | client/src/components/ReviewRoulette/index.tsx:25-50 | With a movie and a successful response: exactly that movie's reviews in input order, and the index of the user's first review, or 0 when the user has none. Otherwise nothing changes. |
| ReviewRoulette.ReviewRoulette.StartDrag | client/src/components/ReviewRoulette/index.tsx:110-121 | Dragging starts; offset, index and reviews are kept. A new drag records the offset at which it began, the one the `window` listeners registered for it read (lines 211-225). |
| ReviewRoulette.ReviewRoulette.MouseMove | client/src/components/ReviewRoulette/index.tsx:123-152 | While dragging, the offset moves by half the travel within the clamp. The index changes only to an existing review, the one the drag-start offset snaps to, since the listener reads the offset of the render in which the drag began. |
| ReviewRoulette.ReviewRoulette.TouchMove | client/src/components/ReviewRoulette/index.tsx:177-199 | While dragging, the offset moves by half the travel within the clamp; the index is unchanged. |
| ReviewRoulette.ReviewRoulette.EndDrag | client/src/components/ReviewRoulette/index.tsx:154-161 | Called only during a drag, as the listeners exist only then (lines 211-225). Dragging stops. The listener reads the drag-start offset, so the index becomes that offset's snap and the wheel lands within half a spacing of where the drag began, whatever the moves in between (a drag from 0 to 300 is released at index 0). From a start offset inside the wheel, the details are then shown. |
| ReviewRoulette.ReviewRoulette.AnimateFrame | client/src/components/ReviewRoulette/index.tsx:56-93 | Not dragging: the frame continues exactly when \|velocity\| ≥ 0.5, moving the offset within the clamp; otherwise it snaps to the index it had. The index changes only to an existing review. A resting state stays resting. |
| ReviewRoulette.ReviewRoulette.VisibleReviews | client/src/components/ReviewRoulette/index.tsx:228-241 | Empty without reviews. At most 5 cards, positions strictly increasing in [−2, 2]. Each card is the review at index + position, and every existing review within two of the index is shown, the selected one at position 0. |
| ReviewRoulette.HasPositionAppend | client/src/components/ReviewRoulette/index.tsx:234-237 | `push` keeps every shown position and adds the new card's. |
| ReviewRoulette.CentreSlot | client/src/components/ReviewRoulette/index.tsx:236 | The card at position 0 of a window is the selected review. |

## Left out

- The search engine's client and index administration are not modelled: mappings, index creation and deletion, `refresh`, `reinitializeIndex` beyond the counter arithmetic, and the developer tools service. These are network calls to a library; each collection is a map.
- `searchByTitle` and `searchByKeywords` are not modelled, because relevance scoring and analyzers are not visible in the code. `byId` is modelled only inside `update`, as the "not found" failure; `delete` fails on the engine's own 404 for a missing key, the same failure in the model. `getDocuments`, `getDocument`, `getReviewsForMovie`, `getAllUsers`, `getUser`, `createUser`, `deleteUser` and the movie controller are thin wrappers and are left out.
- DocStore.Search: the order of hits is the engine's and is left open; contracts hold for every order. Where the source takes "the first" match (`find`), the model takes some match.
- `replaceProfanities` from the `no-profanity` package and `new Date().toISOString()` are parameters of `AddDocument` and `Create`, so the sanitiser and the clock can be anything.
- UsersController.LowerAscii: lower-cases ASCII letters only; JavaScript's `toLowerCase` also maps other Unicode letters.
- UsersController.IsSpace: `\s` is restricted to the six ASCII whitespace characters.
- UsersController.LoginUser: a non-string `name` in the body is not modelled; the name is an optional string.
- UsersController.LoginUser: when more than 1000 users are stored, `all()` may miss the matching one and a duplicate can be created. The contract states unique names only for 1000 or fewer users.
- Concurrent requests are not modelled: the read-then-write upsert, the counter increment and the login scan each run alone.
- The `null → 404` branches of `updateDocument` and `updateUser` cannot be reached. `byId` throws on a missing document, so `update` never returns null and the controllers answer 500.
- ReviewsController.UpdateDocument: `comment` and `rating` are always present in the body. A body without them would carry `undefined` fields, and the model's records have none.
- UserService.Merge: a patch carries only `id`, `name` and `email`. The controller passes the whole request body, so extra keys in it would be stored too.
- ReviewsController.AddDocument: the body's `rating` is always present. In the source a body without `rating` (the review form can send `undefined`) patches the stored rating away, or creates a review without one; the model's `rating: int` cannot express that.
- ReviewRoulette.CommentPreview: lengths count Unicode characters. JavaScript's `length` and `substring` count UTF-16 code units, so the source cuts comments with characters outside the Basic Multilingual Plane earlier, possibly inside a surrogate pair.
- UsersController.LoginUser: the catch-all 500 "Failed to login user" is not modelled. In the model `all()` and `create()` cannot fail.
- MovieService.OpenSearchMovieService.Update: a patch carries only the seven declared fields. Extra keys in a request body would be stored too.
- `IdsMatchKeys` (every document's `id` is its key) is a separate predicate, not part of `Valid()`, the key invariant (every key below the counter). No operation requires either. A movie or user update may break the first, and after a restart the second then fails: `UpdateIdThenRestartThenCreate` shows a `create` replacing a stored document. A failed seeding does the same (`UnseededCreateReplaces`).
- The interleaving of `initializeIndex` with requests is left to the caller: `InitializeIndex` may run before or after any request, but the aggregation and the assignment of its result happen at once.
- Rankings.ObjectValues: lists entries in ascending key order. JavaScript orders negative or non-integer keys differently; movie ids are positive integers.
- Rankings.SortByRating: an insertion sort. The order of equal ratings, which `Array.prototype.sort` keeps stable, is not stated.
- Rankings.RankReviews: averages are exact reals, not floating point. The movies map is a parameter; `fetchMovies` and its error handling are left out.
- The home page's `refetch` callback is not modelled; `HandleReviewCreatedOrUpdated` returns whether it would be called.
- The review roulette's floating-point mechanics are left out: friction, velocity estimation from timestamps, `requestAnimationFrame` scheduling and the render transforms. The velocity and the pointer travel are parameters.
- ReviewRoulette.ReviewRoulette.MouseMove: the `window` listeners' stale closure is modelled for `offset` only (`dragStartOffset`). They also read `currentIndex` and `filteredReviews` of the drag-start render; the model reads the current ones. During a drag only `MouseMove` moves the index, always to the same snap, so the stale index makes no difference; a review fetch in the middle of a drag is not modelled.
- ReviewRoulette.ReviewRoulette.AnimateFrame: requires at least one review (likewise MouseMove and TouchMove). The wheel, and with it every drag and animation, is rendered only when there are reviews.
- ReviewRoulette.ReviewRoulette.FetchMovieReviews: the fetch's own response body is unused by the source and not modelled; a failed or thrown fetch leaves the state unchanged.
- The React rendering itself (markup, styles, the conic-gradient percentages, `toLocaleDateString`) is not modelled.
