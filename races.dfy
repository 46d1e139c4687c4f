/**
 * Runs of the two components, step by step, that show how the program
 * behaves when the user and the network interleave. Nothing guards a settle
 * against a newer request, so the outcomes below are the program's own.
 */
module Races {
  import opened Wrappers
  import opened Fetch
  import opened Render
  import opened Components

  /** A payload for which the search succeeds with the given hits. */
  function Found(hits: seq<MovieSummary>): (o: Outcome<SearchPayload>)
    ensures SearchAttempt(o) == Success(hits)
  {
    Responded(true, Parsed(SearchPayload("True", hits)))
  }

  /**
   * The usual path: a two-letter query shows an empty list with no request;
   * a longer one shows the loader, then the hits once its request settles.
   */
  method TypicalSearch(hits: seq<MovieSummary>)
    returns (shortMovies: seq<MovieSummary>, shortLoading: bool, startedLoading: bool,
             finalMovies: seq<MovieSummary>, finalLoading: bool, finalShown: set<Panel>)
    ensures shortMovies == [] && !shortLoading
    ensures startedLoading
    ensures finalMovies == hits && !finalLoading && finalShown == {Content}
  {
    var app := new App();
    app.SetQuery("ba");
    shortMovies, shortLoading := app.movies, app.isLoading;
    app.SetQuery("batman");
    startedLoading := app.isLoading;
    app.SettleSearch(Found(hits));
    finalMovies, finalLoading := app.movies, app.isLoading;
    finalShown := app.Shown();
    assert Content in finalShown;
  }

  /**
   * Two searches overlap and the older one settles last: its hits replace
   * those of the current query.
   */
  method StaleSearchOverwrites(older: seq<MovieSummary>, newer: seq<MovieSummary>)
    returns (query: string, movies: seq<MovieSummary>, loading: bool)
    ensures query == "superman" && movies == older && !loading
  {
    var app := new App();
    app.SetQuery("batman");
    app.SetQuery("superman");
    app.SettleSearch(Found(newer));
    app.SettleSearch(Found(older));
    query, movies, loading := app.query, app.movies, app.isLoading;
  }

  /** The first of two overlapping searches to settle hides the loader while the other is still pending. */
  method LoaderClearedWhilePending(hits: seq<MovieSummary>)
    returns (loading: bool, ghost pending: nat)
    ensures !loading && pending == 1
  {
    var app := new App();
    app.SetQuery("batman");
    app.SetQuery("superman");
    app.SettleSearch(Found(hits));
    loading, pending := app.isLoading, app.searchesInFlight;
  }

  /**
   * Shortening the query while a search is pending clears the list but keeps
   * the loader on, and the pending search then fills the list for a query
   * that is too short to search.
   */
  method ShortQueryDuringSearch(hits: seq<MovieSummary>)
    returns (shortMovies: seq<MovieSummary>, shortLoading: bool, query: string, movies: seq<MovieSummary>)
    ensures shortMovies == [] && shortLoading
    ensures |query| < MIN_QUERY_LENGTH && movies == hits
  {
    var app := new App();
    app.SetQuery("bat");
    app.SetQuery("ba");
    shortMovies, shortLoading := app.movies, app.isLoading;
    app.SettleSearch(Found(hits));
    query, movies := app.query, app.movies;
  }

  /**
   * An older search that fails after a newer one succeeded leaves the new
   * hits in place but hidden behind the older request's error.
   */
  method StaleFailureHidesResults(hits: seq<MovieSummary>)
    returns (movies: seq<MovieSummary>, error: string, shown: set<Panel>)
    ensures movies == hits && error == MOVIE_NOT_FOUND && shown == {ErrorMessage}
  {
    var app := new App();
    app.SetQuery("batmxn");
    app.SetQuery("batman");
    app.SettleSearch(Found(hits));
    app.SettleSearch(Responded(true, Parsed(SearchPayload("False", []))));
    movies, error := app.movies, app.error;
    shown := app.Shown();
    assert ErrorMessage in shown;
  }

  /** Two hits the catalog lists for "batman". */
  const FIRST := MovieSummary("tt0001", "Batman", "1989", "first.jpg")
  const SECOND := MovieSummary("tt0002", "Batman Returns", "1992", "second.jpg")

  /** A fresh app after a search for "batman" that listed FIRST and SECOND. */
  method ListedApp() returns (app: App)
    ensures fresh(app) && app.Valid()
    ensures app.movies == [FIRST, SECOND] && app.details == null && app.selectedId == None
    ensures app.CanSelect(FIRST.imdbID) && app.CanSelect(SECOND.imdbID)
  {
    app := new App();
    app.SetQuery("batman");
    app.SettleSearch(Found([FIRST, SECOND]));
    assert app.movies[0].imdbID == FIRST.imdbID && app.movies[1].imdbID == SECOND.imdbID;
  }

  /**
   * Clicking one listed movie and then another while the first detail
   * request is pending: if the first settles last, its record is shown for
   * the second.
   */
  method StaleDetailOverwrites(first: DetailPayload, second: DetailPayload)
    returns (selected: Option<string>, movie: DetailPayload, shown: set<Panel>)
    ensures selected == Some(SECOND.imdbID) && movie == first && shown == {Content}
  {
    var app := ListedApp();
    app.SelectMovie(FIRST.imdbID);
    assert app.CanSelect(SECOND.imdbID);
    app.SelectMovie(SECOND.imdbID);
    var d := app.details;
    d.SettleDetail(Responded(true, Parsed(second)));
    d.SettleDetail(Responded(true, Parsed(first)));
    selected, movie := app.selectedId, d.movie;
    shown := d.Shown();
    assert Content in shown;
  }

  /**
   * Two detail requests overlap; the first to settle shows the content and
   * with it the back button. Closing then unmounts the view, and the other
   * request settles into the unmounted instance only: the watched views stay.
   */
  method SettleAfterClose(shown: DetailPayload, late: DetailPayload)
    returns (side: SideView, orphanMovie: DetailPayload, ghost pendingAtClose: nat)
    ensures side == WatchedView && orphanMovie == late && pendingAtClose == 1
  {
    var app := ListedApp();
    app.SelectMovie(FIRST.imdbID);
    assert app.CanSelect(SECOND.imdbID);
    app.SelectMovie(SECOND.imdbID);
    var orphan := app.details;
    orphan.SettleDetail(Responded(true, Parsed(shown)));
    assert app.CanClose();
    pendingAtClose := orphan.fetchesInFlight;
    app.CloseMovie();
    orphan.SettleDetail(Responded(true, Parsed(late)));
    side := Side(app.selectedId);
    orphanMovie := orphan.movie;
  }

  /**
   * Clicking the same listed movie twice closes its details again, even while
   * they load; the pending request then settles into the unmounted view only.
   */
  method SelectSameTwice(late: DetailPayload)
    returns (selected: Option<string>, side: SideView, orphanMovie: DetailPayload)
    ensures selected == None && side == WatchedView && orphanMovie == late
  {
    var app := ListedApp();
    app.SelectMovie(FIRST.imdbID);
    var orphan := app.details;
    assert app.CanSelect(FIRST.imdbID);
    app.SelectMovie(FIRST.imdbID);
    orphan.SettleDetail(Responded(true, Parsed(late)));
    selected := app.selectedId;
    side := Side(selected);
    orphanMovie := orphan.movie;
  }

  /**
   * A detail response reporting a missing record, even with a failing status,
   * is displayed as the movie, with no error.
   */
  method DetailNotFoundShownAsMovie() returns (movie: DetailPayload, error: string, shown: set<Panel>)
    ensures movie == map["Response" := "False", "Error" := "Incorrect IMDb ID."]
    ensures error == "" && shown == {Content}
  {
    var app := ListedApp();
    app.SelectMovie(FIRST.imdbID);
    var d := app.details;
    d.SettleDetail(Responded(false, Parsed(map["Response" := "False", "Error" := "Incorrect IMDb ID."])));
    movie, error := d.movie, d.error;
    shown := d.Shown();
    assert Content in shown;
  }
}
