/**
 * The rankings page (client/src/pages/Rankings/index.tsx): reviews grouped by movie, counted,
 * averaged and sorted best first, with the first three on a podium.
 */
module Rankings {
  import opened Options
  import opened ClientTypes
  import DocStore

  /** `MovieRanking`; while the reviews are being tallied `rating` holds the running sum. */
  datatype MovieRanking = MovieRanking(movieId: int, rating: real, reviewCount: int, recommendedBy: string)

  const UNKNOWN := "Unknown"

  // ---------------------------------------------------------------- specification

  /** The number of reviews of movie `m`. */
  function CountOf(data: seq<Review>, m: int): nat {
    if data == [] then 0
    else CountOf(data[..|data| - 1], m) + (if data[|data| - 1].movieId == m then 1 else 0)
  }

  /** The sum of the ratings of the reviews of movie `m`. */
  function RatingSum(data: seq<Review>, m: int): int {
    if data == [] then 0
    else RatingSum(data[..|data| - 1], m) + (if data[|data| - 1].movieId == m then data[|data| - 1].rating else 0)
  }

  /** The movies that have at least one review. */
  function MovieIds(data: seq<Review>): set<int> {
    set i | 0 <= i < |data| :: data[i].movieId
  }

  /** The known movie `m` names a recommender (a truthy `recommended_by`). */
  predicate HasRecommender(movies: map<int, Movie>, m: int) {
    m in movies && movies[m].recommendedBy.Some? && movies[m].recommendedBy.value != ""
  }

  /** `movies[movieId]?.recommended_by || "Unknown"`: an absent or empty name reads as "Unknown". */
  function RecommendedBy(movies: map<int, Movie>, m: int): (r: string)
    ensures r != ""
    ensures HasRecommender(movies, m) ==> r == movies[m].recommendedBy.value
    ensures !HasRecommender(movies, m) ==> r == UNKNOWN
  {
    if HasRecommender(movies, m) then movies[m].recommendedBy.value else UNKNOWN
  }

  /** What the tally holds for movie `m` once every review has been seen. */
  function Tally(data: seq<Review>, movies: map<int, Movie>, m: int): MovieRanking {
    MovieRanking(m, RatingSum(data, m) as real, CountOf(data, m), RecommendedBy(movies, m))
  }

  /** The entry the page shows for movie `m`: its count, its average rating and its recommender. */
  function Ranking(data: seq<Review>, movies: map<int, Movie>, m: int): MovieRanking
    requires m in MovieIds(data)
  {
    CountPositive(data, m);
    MovieRanking(m, RatingSum(data, m) as real / CountOf(data, m) as real, CountOf(data, m), RecommendedBy(movies, m))
  }

  lemma {:induction false} MovieIdsPrefix(data: seq<Review>)
    requires data != []
    ensures MovieIds(data) == MovieIds(data[..|data| - 1]) + {data[|data| - 1].movieId}
  {
    var prefix := data[..|data| - 1];
    forall x | x in MovieIds(prefix)
      ensures x in MovieIds(data)
    {
      var i :| 0 <= i < |prefix| && prefix[i].movieId == x;
      assert data[i].movieId == x;
    }
    forall x | x in MovieIds(data)
      ensures x in MovieIds(prefix) + {data[|data| - 1].movieId}
    {
      var i :| 0 <= i < |data| && data[i].movieId == x;
      if i < |prefix| {
        assert prefix[i].movieId == x;
      }
    }
  }

  /** A movie has reviews exactly when its count is positive; without reviews its sum is 0. */
  lemma {:induction false} CountPositive(data: seq<Review>, m: int)
    ensures m in MovieIds(data) <==> CountOf(data, m) > 0
    ensures m !in MovieIds(data) ==> RatingSum(data, m) == 0
  {
    if data != [] {
      MovieIdsPrefix(data);
      CountPositive(data[..|data| - 1], m);
    }
  }

  // ---------------------------------------------------------------- grouping

  /**
   * The `data.forEach` of `fetchRankings`: each review creates its movie's entry on first sight
   * (count 0, sum 0, the recommender looked up once) and adds one to its count and its rating to
   * its sum.
   */
  method TallyByMovie(data: seq<Review>, movies: map<int, Movie>) returns (byMovie: map<int, MovieRanking>)
    ensures byMovie.Keys == MovieIds(data)
    ensures forall m :: m in byMovie ==> byMovie[m] == Tally(data, movies, m)
  {
    byMovie := map[];
    var i := 0;
    while i < |data|
      invariant 0 <= i <= |data|
      invariant byMovie.Keys == MovieIds(data[..i])
      invariant forall m :: m in byMovie ==> byMovie[m] == Tally(data[..i], movies, m)
    {
      var review := data[i];
      if review.movieId !in byMovie {
        byMovie := byMovie[review.movieId := MovieRanking(review.movieId, 0.0, 0, RecommendedBy(movies, review.movieId))];
      }
      var entry := byMovie[review.movieId];
      byMovie := byMovie[review.movieId := entry.(reviewCount := entry.reviewCount + 1,
                                                  rating := entry.rating + review.rating as real)];
      TallyStep(data, movies, i, review.movieId);
      i := i + 1;
    }
    assert data[..i] == data;
  }

  /** How one more review changes the specification of the tally. */
  lemma TallyStep(data: seq<Review>, movies: map<int, Movie>, i: int, m: int)
    requires 0 <= i < |data| && m == data[i].movieId
    ensures MovieIds(data[..i + 1]) == MovieIds(data[..i]) + {m}
    ensures m !in MovieIds(data[..i]) ==> Tally(data[..i], movies, m) == MovieRanking(m, 0.0, 0, RecommendedBy(movies, m))
    ensures Tally(data[..i + 1], movies, m) == Tally(data[..i], movies, m).(
              reviewCount := CountOf(data[..i], m) + 1, rating := (RatingSum(data[..i], m) + data[i].rating) as real)
    ensures forall x :: x != m ==> Tally(data[..i + 1], movies, x) == Tally(data[..i], movies, x)
  {
    assert data[..i + 1][..i] == data[..i];
    MovieIdsPrefix(data[..i + 1]);
    CountPositive(data[..i], m);
  }

  // ---------------------------------------------------------------- Object.values

  /** A non-empty set of integers has a least element. */
  lemma {:induction false} MinExists(s: set<int>)
    requires s != {}
    ensures exists x :: x in s && forall y :: y in s ==> x <= y
    decreases |s|
  {
    DocStore.HasMember(s);
    var x :| x in s;
    if s - {x} != {} {
      MinExists(s - {x});
      var y :| y in s - {x} && forall z :: z in s - {x} ==> y <= z;
      var least := if x < y then x else y;
      forall z | z in s
        ensures least <= z
      {
        if z != x {
          assert z in s - {x};
        }
      }
    } else {
      forall z | z in s
        ensures x <= z
      {
        assert z !in s - {x};
      }
    }
  }

  /**
   * `Object.values(reviewsByMovie)`: the entries in ascending order of their (integer) keys, each
   * key once; `keys` names the key behind each value.
   */
  method ObjectValues<V(==)>(m: map<int, V>) returns (values: seq<V>, ghost keys: seq<int>)
    ensures |values| == |keys| == |m.Keys|
    ensures forall i :: 0 <= i < |keys| ==> keys[i] in m && values[i] == m[keys[i]]
    ensures forall i, j :: 0 <= i < j < |keys| ==> keys[i] < keys[j]
    ensures forall k :: k in m ==> k in keys
    ensures forall i :: 0 <= i < |values| ==> values[i] in m.Values
    ensures forall k :: k in m ==> m[k] in values
  {
    values, keys := [], [];
    var remaining := m.Keys;
    while remaining != {}
      invariant remaining <= m.Keys
      invariant forall k :: k in m ==> (k in remaining <==> k !in keys)
      invariant |values| == |keys| && |keys| + |remaining| == |m.Keys|
      invariant forall i :: 0 <= i < |keys| ==> keys[i] in m && values[i] == m[keys[i]]
      invariant forall i, j :: 0 <= i < j < |keys| ==> keys[i] < keys[j]
      invariant forall i, k :: 0 <= i < |keys| && k in remaining ==> keys[i] < k
      decreases remaining
    {
      MinExists(remaining);
      var k :| k in remaining && forall y :: y in remaining ==> k <= y;
      values, keys := values + [m[k]], keys + [k];
      remaining := remaining - {k};
    }
  }

  // ---------------------------------------------------------------- averaging and sorting

  /** The `.map` after grouping: the running sum becomes the average. */
  function Averaged(r: MovieRanking): (avg: MovieRanking)
    requires r.reviewCount != 0
    ensures avg.rating * r.reviewCount as real == r.rating
    ensures avg == r.(rating := avg.rating)
  {
    r.(rating := r.rating / r.reviewCount as real)
  }

  /** Best first: ratings never increase along the list. */
  predicate SortedByRating(s: seq<MovieRanking>) {
    forall i, j :: 0 <= i < j < |s| ==> s[i].rating >= s[j].rating
  }

  /**
   * `rankingsArray.sort((a, b) => b.rating - a.rating)`, in place: an insertion sort that moves
   * each entry left only past strictly lower-rated ones.
   */
  method SortByRating(a: array<MovieRanking>)
    modifies a
    ensures SortedByRating(a[..])
    ensures multiset(a[..]) == multiset(old(a[..]))
  {
    var i := 0;
    while i < a.Length
      invariant 0 <= i <= a.Length
      invariant SortedByRating(a[..i])
      invariant multiset(a[..]) == multiset(old(a[..]))
    {
      InsertLeft(a, i);
      i := i + 1;
    }
    assert a[..a.Length] == a[..];
  }

  /** One insertion step: `a[i]` moves left into the sorted prefix `a[..i]`. */
  method InsertLeft(a: array<MovieRanking>, i: int)
    requires 0 <= i < a.Length && SortedByRating(a[..i])
    modifies a
    ensures SortedByRating(a[..i + 1])
    ensures multiset(a[..]) == multiset(old(a[..]))
  {
    var j := i;
    while j > 0 && a[j - 1].rating < a[j].rating
      invariant 0 <= j <= i
      invariant forall p, q :: 0 <= p < q <= i && p != j && q != j ==> a[p].rating >= a[q].rating
      invariant forall q :: j < q <= i ==> a[j].rating > a[q].rating
      invariant multiset(a[..]) == multiset(old(a[..]))
    {
      Swap(a, j - 1, j);
      j := j - 1;
    }
  }

  /** Exchanging two entries keeps the same entries. */
  method Swap(a: array<MovieRanking>, i: int, j: int)
    requires 0 <= i < a.Length && 0 <= j < a.Length
    modifies a
    ensures a[..] == old(a[..])[i := old(a[j])][j := old(a[i])]
    ensures multiset(a[..]) == multiset(old(a[..]))
  {
    a[i], a[j] := a[j], a[i];
  }

  // ---------------------------------------------------------------- fetchRankings

  /**
   * What the page holds after `fetchRankings`: one entry per reviewed movie and no other, each
   * with that movie's count, average and recommender.
   */
  ghost predicate IsRanking(data: seq<Review>, movies: map<int, Movie>, rankings: seq<MovieRanking>) {
    && (forall i :: 0 <= i < |rankings| ==>
          rankings[i].movieId in MovieIds(data) && rankings[i] == Ranking(data, movies, rankings[i].movieId))
    && (forall m :: m in MovieIds(data) ==> exists i :: 0 <= i < |rankings| && rankings[i].movieId == m)
    && (forall i, j :: 0 <= i < j < |rankings| ==> rankings[i].movieId != rankings[j].movieId)
  }

  /** Group, count and sum; average; sort best first. */
  method RankReviews(data: seq<Review>, movies: map<int, Movie>) returns (rankings: seq<MovieRanking>)
    ensures IsRanking(data, movies, rankings)
    ensures SortedByRating(rankings)
    ensures |rankings| == |MovieIds(data)|
  {
    var byMovie := TallyByMovie(data, movies);
    var values, keys := ObjectValues(byMovie);
    forall i | 0 <= i < |values|
      ensures values[i].reviewCount != 0 && Averaged(values[i]) == Ranking(data, movies, keys[i])
    {
      CountPositive(data, keys[i]);
    }
    var averaged := seq(|values|, i requires 0 <= i < |values| => Averaged(values[i]));
    var sorted := new MovieRanking[|averaged|](i requires 0 <= i < |averaged| => averaged[i]);
    assert sorted[..] == averaged;
    SortByRating(sorted);
    rankings := sorted[..];
    RankingOfPermutation(data, movies, keys, averaged, rankings);
  }

  /**
   * Entries listed one per reviewed movie, in any order, form a ranking; so does any reordering
   * of them, which is what lets the sort leave the ranking intact.
   */
  lemma RankingOfPermutation(data: seq<Review>, movies: map<int, Movie>, keys: seq<int>,
                             entries: seq<MovieRanking>, rankings: seq<MovieRanking>)
    requires |keys| == |entries| && multiset(entries) == multiset(rankings)
    requires forall i :: 0 <= i < |keys| ==> keys[i] in MovieIds(data) && entries[i] == Ranking(data, movies, keys[i])
    requires forall m :: m in MovieIds(data) ==> m in keys
    requires forall i, j :: 0 <= i < j < |keys| ==> keys[i] != keys[j]
    ensures IsRanking(data, movies, rankings)
    ensures |rankings| == |MovieIds(data)|
  {
    forall i | 0 <= i < |rankings|
      ensures rankings[i].movieId in MovieIds(data) && rankings[i] == Ranking(data, movies, rankings[i].movieId)
    {
      assert rankings[i] in multiset(entries);
      var j :| 0 <= j < |entries| && entries[j] == rankings[i];
    }
    forall m | m in MovieIds(data)
      ensures exists i :: 0 <= i < |rankings| && rankings[i].movieId == m
    {
      var j :| 0 <= j < |keys| && keys[j] == m;
      assert entries[j] in multiset(rankings);
      var i :| 0 <= i < |rankings| && rankings[i] == entries[j];
    }
    DistinctAfterPermutation(entries, rankings);
    assert |rankings| == |MovieIds(data)| by {
      assert multiset(entries) == multiset(rankings);
      assert |entries| == |rankings|;
      DistinctCount(keys, MovieIds(data));
    }
  }

  /** A list of distinct integers that covers a set and stays inside it is as long as the set is large. */
  lemma {:induction false} DistinctCount(keys: seq<int>, ids: set<int>)
    requires forall i, j :: 0 <= i < j < |keys| ==> keys[i] != keys[j]
    requires forall m :: m in ids ==> m in keys
    requires forall i :: 0 <= i < |keys| ==> keys[i] in ids
    ensures |keys| == |ids|
    decreases |keys|
  {
    if keys != [] {
      var last := keys[|keys| - 1];
      var prefix := keys[..|keys| - 1];
      forall m | m in ids - {last}
        ensures m in prefix
      {
        var i :| 0 <= i < |keys| && keys[i] == m;
        assert i < |prefix|;
      }
      DistinctCount(prefix, ids - {last});
    } else {
      assert forall m :: m !in ids;
      assert ids == {};
    }
  }

  /**
   * Reordering a list without repeated movies, in which a movie's entry is determined by the
   * movie, gives a list without repeated movies.
   */
  lemma DistinctAfterPermutation(a: seq<MovieRanking>, b: seq<MovieRanking>)
    requires multiset(a) == multiset(b)
    requires forall i, j :: 0 <= i < j < |a| ==> a[i].movieId != a[j].movieId
    requires forall i, j :: 0 <= i < |b| && 0 <= j < |b| && b[i].movieId == b[j].movieId ==> b[i] == b[j]
    ensures forall i, j :: 0 <= i < j < |b| ==> b[i].movieId != b[j].movieId
  {
    forall i, j | 0 <= i < j < |b|
      ensures b[i].movieId != b[j].movieId
    {
      AtMostOnce(a, b[i]);
      if b[i].movieId == b[j].movieId {
        TwiceMeansTwo(b, i, j);
      }
    }
  }

  /** A list without repetitions holds each value at most once. */
  lemma {:induction false} AtMostOnce<T>(s: seq<T>, x: T)
    requires forall i, j :: 0 <= i < j < |s| ==> s[i] != s[j]
    ensures multiset(s)[x] <= 1
  {
    if s != [] {
      assert s == [s[0]] + s[1..];
      AtMostOnce(s[1..], x);
      if s[0] == x {
        assert x !in s[1..];
      }
    }
  }

  /** A value at two positions is counted twice. */
  lemma TwiceMeansTwo<T>(s: seq<T>, i: int, j: int)
    requires 0 <= i < j < |s| && s[i] == s[j]
    ensures multiset(s)[s[i]] >= 2
  {
    assert s == s[..j] + [s[j]] + s[j + 1..];
    assert s[..j][i] == s[i];
  }

  // ---------------------------------------------------------------- properties of the rankings

  /** The sum of the entries' review counts. */
  function SumCounts(rs: seq<MovieRanking>): int {
    if rs == [] then 0 else SumCounts(rs[..|rs| - 1]) + rs[|rs| - 1].reviewCount
  }

  /** The number of reviews of the movies in `ids`. */
  function CountIn(data: seq<Review>, ids: set<int>): nat {
    if data == [] then 0
    else CountIn(data[..|data| - 1], ids) + (if data[|data| - 1].movieId in ids then 1 else 0)
  }

  /** The movies the entries are about. */
  function RankedIds(rs: seq<MovieRanking>): set<int> {
    set i | 0 <= i < |rs| :: rs[i].movieId
  }

  lemma {:induction false} CountInAdd(data: seq<Review>, ids: set<int>, m: int)
    requires m !in ids
    ensures CountIn(data, ids + {m}) == CountIn(data, ids) + CountOf(data, m)
  {
    if data != [] {
      CountInAdd(data[..|data| - 1], ids, m);
    }
  }

  lemma {:induction false} CountInAll(data: seq<Review>, ids: set<int>)
    requires MovieIds(data) <= ids
    ensures CountIn(data, ids) == |data|
  {
    if data != [] {
      MovieIdsPrefix(data);
      CountInAll(data[..|data| - 1], ids);
    }
  }

  lemma {:induction false} SumCountsByIds(data: seq<Review>, rs: seq<MovieRanking>)
    requires forall i :: 0 <= i < |rs| ==> rs[i].reviewCount == CountOf(data, rs[i].movieId)
    requires forall i, j :: 0 <= i < j < |rs| ==> rs[i].movieId != rs[j].movieId
    ensures SumCounts(rs) == CountIn(data, RankedIds(rs))
  {
    if rs != [] {
      var prefix, last := rs[..|rs| - 1], rs[|rs| - 1];
      SumCountsByIds(data, prefix);
      assert RankedIds(rs) == RankedIds(prefix) + {last.movieId} by {
        forall x | x in RankedIds(rs)
          ensures x in RankedIds(prefix) + {last.movieId}
        {
          var i :| 0 <= i < |rs| && rs[i].movieId == x;
          if i < |prefix| {
            assert prefix[i].movieId == x;
          }
        }
        forall x | x in RankedIds(prefix)
          ensures x in RankedIds(rs)
        {
          var i :| 0 <= i < |prefix| && prefix[i].movieId == x;
          assert rs[i].movieId == x;
        }
      }
      assert last.movieId !in RankedIds(prefix);
      CountInAdd(data, RankedIds(prefix), last.movieId);
      assert last.reviewCount == CountOf(data, last.movieId);
    } else {
      assert RankedIds(rs) == {};
      CountInNothing(data);
    }
  }

  lemma {:induction false} CountInNothing(data: seq<Review>)
    ensures CountIn(data, {}) == 0
  {
    if data != [] {
      CountInNothing(data[..|data| - 1]);
    }
  }

  /** The entries' review counts add up to the number of reviews. */
  lemma CountsSumToTotal(data: seq<Review>, movies: map<int, Movie>, rankings: seq<MovieRanking>)
    requires IsRanking(data, movies, rankings)
    ensures SumCounts(rankings) == |data|
  {
    SumCountsByIds(data, rankings);
    assert RankedIds(rankings) == MovieIds(data);
    CountInAll(data, MovieIds(data));
  }

  /** When every rating of `m` exceeds `x`, so does their sum exceed `x` times their count. */
  lemma {:induction false} SumAbove(data: seq<Review>, m: int, x: real)
    requires forall i :: 0 <= i < |data| && data[i].movieId == m ==> data[i].rating as real > x
    ensures RatingSum(data, m) as real >= CountOf(data, m) as real * x
    ensures CountOf(data, m) > 0 ==> RatingSum(data, m) as real > CountOf(data, m) as real * x
  {
    if data != [] {
      var prefix, last := data[..|data| - 1], data[|data| - 1];
      assert forall i :: 0 <= i < |prefix| ==> prefix[i] == data[i];
      SumAbove(prefix, m, x);
      StepAbove(RatingSum(prefix, m), CountOf(prefix, m), last.movieId == m, last.rating, x);
    }
  }

  /** When every rating of `m` is below `x`, so is their sum below `x` times their count. */
  lemma {:induction false} SumBelow(data: seq<Review>, m: int, x: real)
    requires forall i :: 0 <= i < |data| && data[i].movieId == m ==> (data[i].rating as real) < x
    ensures RatingSum(data, m) as real <= CountOf(data, m) as real * x
    ensures CountOf(data, m) > 0 ==> RatingSum(data, m) as real < CountOf(data, m) as real * x
  {
    if data != [] {
      var prefix, last := data[..|data| - 1], data[|data| - 1];
      assert forall i :: 0 <= i < |prefix| ==> prefix[i] == data[i];
      SumBelow(prefix, m, x);
      StepBelow(RatingSum(prefix, m), CountOf(prefix, m), last.movieId == m, last.rating, x);
    }
  }

  /** Adding one more rating above `x` (when `counted`) keeps a sum above `x` times its count. */
  lemma StepAbove(sum: int, count: nat, counted: bool, rating: int, x: real)
    requires sum as real >= count as real * x
    requires count > 0 ==> sum as real > count as real * x
    requires counted ==> rating as real > x
    ensures (sum + if counted then rating else 0) as real >= (count + if counted then 1 else 0) as real * x
    ensures count + (if counted then 1 else 0) > 0 ==>
              (sum + if counted then rating else 0) as real > (count + if counted then 1 else 0) as real * x
  {
    if counted {
      assert (count + 1) as real * x == count as real * x + x;
    }
  }

  /** Adding one more rating below `x` (when `counted`) keeps a sum below `x` times its count. */
  lemma StepBelow(sum: int, count: nat, counted: bool, rating: int, x: real)
    requires sum as real <= count as real * x
    requires count > 0 ==> sum as real < count as real * x
    requires counted ==> (rating as real) < x
    ensures (sum + if counted then rating else 0) as real <= (count + if counted then 1 else 0) as real * x
    ensures count + (if counted then 1 else 0) > 0 ==>
              (sum + if counted then rating else 0) as real < (count + if counted then 1 else 0) as real * x
  {
    if counted {
      assert (count + 1) as real * x == count as real * x + x;
    }
  }

  /** A movie's average lies between its lowest and its highest rating. */
  lemma AverageWithinRatings(data: seq<Review>, movies: map<int, Movie>, m: int)
    requires m in MovieIds(data)
    ensures exists i :: 0 <= i < |data| && data[i].movieId == m && data[i].rating as real <= Ranking(data, movies, m).rating
    ensures exists i :: 0 <= i < |data| && data[i].movieId == m && data[i].rating as real >= Ranking(data, movies, m).rating
  {
    CountPositive(data, m);
    var avg := Ranking(data, movies, m).rating;
    assert avg * CountOf(data, m) as real == RatingSum(data, m) as real;
    if forall i :: 0 <= i < |data| && data[i].movieId == m ==> data[i].rating as real > avg {
      SumAbove(data, m, avg);
    }
    if forall i :: 0 <= i < |data| && data[i].movieId == m ==> (data[i].rating as real) < avg {
      SumBelow(data, m, avg);
    }
  }

  // ---------------------------------------------------------------- podium

  datatype Podium = Podium(first: MovieRanking, second: MovieRanking, third: MovieRanking)

  /** The podium is shown only with at least three entries, and shows the first three in order. */
  function PodiumOf(rankings: seq<MovieRanking>): (p: Option<Podium>)
    ensures p.Some? <==> |rankings| >= 3
    ensures p.Some? ==> p.value == Podium(rankings[0], rankings[1], rankings[2])
  {
    if |rankings| >= 3 then Some(Podium(rankings[0], rankings[1], rankings[2])) else None
  }

  /** On sorted rankings the podium holds the three best averages, best first. */
  lemma PodiumIsTopThree(rankings: seq<MovieRanking>)
    requires SortedByRating(rankings) && |rankings| >= 3
    ensures var p := PodiumOf(rankings).value;
      && p.first.rating >= p.second.rating >= p.third.rating
      && forall i :: 3 <= i < |rankings| ==> p.third.rating >= rankings[i].rating
  {
  }
}
