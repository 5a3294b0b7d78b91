/** The records the client receives from the API (client/src/types/index.ts). */
module ClientTypes {
  import opened Options

  /** A review as the client sees it; `rating` runs from 1 to 10. */
  datatype Review = Review(id: int, userId: int, movieId: int, rating: int, comment: string, date: string)

  /** A movie as the client sees it; `recommendedBy` is the optional `recommended_by`. */
  datatype Movie = Movie(id: int, title: string, description: string, tags: seq<string>, recommendedBy: Option<string>)
}
