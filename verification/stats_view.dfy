/**
 * The stats panel (client/src/components/StatsView/index.tsx): likes, dislikes and the share of
 * likes among the selected movie's reviews.
 */
module StatsView {
  import opened Options
  import opened Seqs
  import opened ClientTypes

  /** "Good" for the stats: a rating of 5 or more. */
  function IsLike(r: Review): bool { r.rating >= 5 }

  /** "Bad" for the stats: a rating below 5. */
  function IsDislike(r: Review): bool { r.rating < 5 }

  /** What the panel shows: a prompt when no movie is selected, otherwise the counts and the ratio. */
  datatype Stats =
    | SelectMoviePrompt
    | MovieStats(title: string, goodCount: nat, badCount: nat, ratio: real)

  /** `likeRatio`: the share of likes among `total` reviews, 0 when there are none. */
  function LikeRatio(likes: nat, total: nat): (ratio: real)
    requires likes <= total
    ensures 0.0 <= ratio <= 1.0
    ensures total == 0 ==> ratio == 0.0
    ensures total != 0 ==> ratio * total as real == likes as real
  {
    if total == 0 then 0.0 else likes as real / total as real
  }

  /**
   * The panel's content. With a movie selected, `goodCount` and `badCount` count the likes and the
   * dislikes, which between them account for every review, and the ratio is the share of likes
   * (0 when there are no reviews).
   */
  function StatsFor(selectedMovie: Option<Movie>, reviews: seq<Review>): (v: Stats)
    ensures selectedMovie.None? <==> v.SelectMoviePrompt?
    ensures v.MovieStats? ==>
              && v.title == selectedMovie.value.title
              && v.goodCount == |Filter(reviews, IsLike)| && v.badCount == |Filter(reviews, IsDislike)|
              && v.goodCount + v.badCount == |reviews|
              && v.ratio == LikeRatio(v.goodCount, |reviews|)
  {
    if selectedMovie.None? then SelectMoviePrompt
    else
      var goodCount := |Filter(reviews, IsLike)|;
      var badCount := |Filter(reviews, IsDislike)|;
      FilterComplement(reviews, IsLike, IsDislike);
      MovieStats(selectedMovie.value.title, goodCount, badCount, LikeRatio(goodCount, goodCount + badCount))
  }
}
