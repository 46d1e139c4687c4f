/**
 * The two catalog requests with the network taken out: what `fetch` and
 * `res.json()` produced is an `Outcome` value, and the code after the first
 * `await` turns it into the value stored or the message caught.
 */
module Fetch {
  import opened Wrappers

  /** Message thrown when the search response is not ok (the misspelling is the program's). */
  const FETCH_MOVIES_FAILED := "Something went wrong wih fetching movies"

  /** Message thrown when the search payload reports no match. */
  const MOVIE_NOT_FOUND := "Movie not found"

  /** One search hit, in the order the catalog returned it. */
  datatype MovieSummary = MovieSummary(imdbID: string, title: string, year: string, poster: string)

  /** The fields of a parsed search payload that the program reads: `Response` and `Search`. */
  datatype SearchPayload = SearchPayload(response: string, search: seq<MovieSummary>)

  /** A parsed detail payload: a JSON object, stored wholesale. */
  type DetailPayload = map<string, string>

  /** What `res.json()` yields: the parsed data, or the message of the error it throws. */
  datatype Body<P> = Parsed(data: P) | Unparsable(message: string)

  /**
   * How a request settled: `fetch` itself rejected with a message, or a
   * response came back with its `ok` flag and the body it would parse to.
   */
  datatype Outcome<P> = Rejected(message: string) | Responded(ok: bool, body: Body<P>)

  /**
   * The `try` block of the search after `fetch`: a transport rejection or an
   * unparsable body surfaces its own message; a response that is not ok fails
   * with FETCH_MOVIES_FAILED before the body is read; an ok payload whose
   * `Response` is "False" fails with MOVIE_NOT_FOUND; anything else yields the
   * `Search` list unchanged.
   */
  function SearchAttempt(o: Outcome<SearchPayload>): (r: Result<seq<MovieSummary>, string>)
    ensures r.Success? <==> o.Responded? && o.ok && o.body.Parsed? && o.body.data.response != "False"
    ensures r.Success? ==> r.value == o.body.data.search
    ensures o.Rejected? ==> r == Failure(o.message)
    ensures o.Responded? && !o.ok ==> r == Failure(FETCH_MOVIES_FAILED)
    ensures o.Responded? && o.ok && o.body.Unparsable? ==> r == Failure(o.body.message)
    ensures o.Responded? && o.ok && o.body.Parsed? && o.body.data.response == "False" ==> r == Failure(MOVIE_NOT_FOUND)
  {
    match o
    case Rejected(message) => Failure(message)
    case Responded(ok, body) =>
      if !ok then Failure(FETCH_MOVIES_FAILED)
      else match body
        case Unparsable(message) => Failure(message)
        case Parsed(data) =>
          if data.response == "False" then Failure(MOVIE_NOT_FOUND) else Success(data.search)
  }

  /**
   * The `try` block of the detail request after `fetch`: the status is never
   * looked at, any parsed payload is a success, and only a rejection or an
   * unparsable body fails, with its own message.
   */
  function DetailAttempt(o: Outcome<DetailPayload>): (r: Result<DetailPayload, string>)
    ensures r.Success? <==> o.Responded? && o.body.Parsed?
    ensures r.Success? ==> r.value == o.body.data
    ensures o.Rejected? ==> r == Failure(o.message)
    ensures o.Responded? && o.body.Unparsable? ==> r == Failure(o.body.message)
  {
    match o
    case Rejected(message) => Failure(message)
    case Responded(_, body) =>
      match body
      case Unparsable(message) => Failure(message)
      case Parsed(data) => Success(data)
  }

  /** A search response that is not ok fails the same way whatever its body would have been. */
  lemma SearchStatusCheckedBeforeBody(b1: Body<SearchPayload>, b2: Body<SearchPayload>)
    ensures SearchAttempt(Responded(false, b1)) == SearchAttempt(Responded(false, b2))
  {
  }

  /** The three ways a search attempt can fail carry pairwise different messages when the fault's own message differs from both literals. */
  lemma SearchFailuresDistinguishable(o: Outcome<SearchPayload>)
    requires o.Rejected? ==> o.message != FETCH_MOVIES_FAILED && o.message != MOVIE_NOT_FOUND
    requires o.Responded? && o.ok && o.body.Unparsable? ==>
               o.body.message != FETCH_MOVIES_FAILED && o.body.message != MOVIE_NOT_FOUND
    ensures SearchAttempt(o) == Failure(FETCH_MOVIES_FAILED) <==> o.Responded? && !o.ok
    ensures SearchAttempt(o) == Failure(MOVIE_NOT_FOUND) <==>
              o.Responded? && o.ok && o.body.Parsed? && o.body.data.response == "False"
  {
  }

  /** The detail result does not depend on the status flag of the response. */
  lemma DetailIgnoresStatus(b: Body<DetailPayload>)
    ensures DetailAttempt(Responded(true, b)) == DetailAttempt(Responded(false, b))
  {
  }

  /**
   * Unlike the search, a detail payload that reports a missing record
   * (`Response` is "False") is accepted as the movie.
   */
  lemma DetailAcceptsNotFoundPayload(ok: bool, data: DetailPayload, hits: seq<MovieSummary>)
    requires "Response" in data && data["Response"] == "False"
    ensures DetailAttempt(Responded(ok, Parsed(data))) == Success(data)
    ensures SearchAttempt(Responded(ok, Parsed(SearchPayload("False", hits)))).Failure?
  {
  }
}
