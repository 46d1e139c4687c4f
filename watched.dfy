/** The watched list and the `WatchedSummary` figures derived from it. */
module Watched {
  import opened Aggregate

  /** One entry of the watched list. */
  datatype WatchedMovie = WatchedMovie(
    imdbID: string, title: string, poster: string,
    imdbRating: real, userRating: real, runtime: real)

  /** What the summary shows: the count and three averages. */
  datatype Summary = Summary(count: nat, avgImdbRating: real, avgUserRating: real, avgRuntime: real)

  function ImdbRatings(watched: seq<WatchedMovie>): (r: seq<real>)
    ensures |r| == |watched| && forall i :: 0 <= i < |watched| ==> r[i] == watched[i].imdbRating
  {
    seq(|watched|, i requires 0 <= i < |watched| => watched[i].imdbRating)
  }

  function UserRatings(watched: seq<WatchedMovie>): (r: seq<real>)
    ensures |r| == |watched| && forall i :: 0 <= i < |watched| ==> r[i] == watched[i].userRating
  {
    seq(|watched|, i requires 0 <= i < |watched| => watched[i].userRating)
  }

  function Runtimes(watched: seq<WatchedMovie>): (r: seq<real>)
    ensures |r| == |watched| && forall i :: 0 <= i < |watched| ==> r[i] == watched[i].runtime
  {
    seq(|watched|, i requires 0 <= i < |watched| => watched[i].runtime)
  }

  /**
   * The summary of a watched list: its length and the mean of each numeric
   * field; an empty list gives zeros.
   */
  function Summarize(watched: seq<WatchedMovie>): (s: Summary)
    ensures s.count == |watched|
    ensures s.avgImdbRating == Mean(ImdbRatings(watched))
    ensures s.avgUserRating == Mean(UserRatings(watched))
    ensures s.avgRuntime == Mean(Runtimes(watched))
    ensures watched == [] ==> s == Summary(0, 0.0, 0.0, 0.0)
  {
    Summary(|watched|, Average(ImdbRatings(watched)), Average(UserRatings(watched)), Average(Runtimes(watched)))
  }

  /** User ratings on the 1..10 scale give an average user rating on that scale. */
  lemma SummaryUserRatingOnScale(watched: seq<WatchedMovie>)
    requires watched != []
    requires forall i :: 0 <= i < |watched| ==> 1.0 <= watched[i].userRating <= 10.0
    ensures 1.0 <= Summarize(watched).avgUserRating <= 10.0
  {
    MeanWithin(UserRatings(watched), 1.0, 10.0);
  }
}
