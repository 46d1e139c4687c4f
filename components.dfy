/**
 * The two stateful components. Each request is split into the effect that
 * starts it (everything up to the first `await`) and the settle step that
 * runs when the response arrives. There is no request-sequence guard: any
 * settle, however stale, is applied to the state. Ghost counters record how
 * many requests are in flight, so that a settle can only follow a start.
 */
module Components {
  import opened Wrappers
  import opened Fetch
  import opened Selection
  import opened Watched
  import opened Render

  /** Shortest query that triggers a search. */
  const MIN_QUERY_LENGTH := 3

  /** The `MovieDetails` component: its `selectedId` prop and its own state slots. */
  class MovieDetails {
    var selectedId: string
    var movie: DetailPayload
    var isLoading: bool
    var error: string
    ghost var fetchesInFlight: nat

    /** Starting a fetch clears the error, and only a settle clears the loading flag. */
    ghost predicate Valid()
      reads this
    {
      && (isLoading ==> error == "")
      && (fetchesInFlight == 0 ==> !isLoading)
    }

    /** Mounting: the state starts as `{}`, false, "" and the effect starts the first fetch. */
    constructor (id: string)
      ensures Valid()
      ensures selectedId == id && movie == map[]
      ensures isLoading && error == "" && fetchesInFlight == 1
    {
      selectedId := id;
      movie := map[];
      isLoading := false;
      error := "";
      fetchesInFlight := 0;
      new;
      DetailEffect();
    }

    /**
     * `getMovieDetails` up to its `await`: loading on, error cleared, `movie` kept.
     * Called only from the constructor and `ChangeSelectedId`, never as a user event.
     */
    method DetailEffect()
      requires Valid()
      modifies this
      ensures Valid()
      ensures isLoading && error == ""
      ensures movie == old(movie) && selectedId == old(selectedId)
      ensures fetchesInFlight == old(fetchesInFlight) + 1
    {
      isLoading := true;
      error := "";
      fetchesInFlight := fetchesInFlight + 1;
    }

    /** A new `selectedId` prop; the effect runs again only when the identifier changed. */
    method ChangeSelectedId(id: string)
      requires Valid()
      modifies this
      ensures Valid()
      ensures selectedId == id && movie == old(movie)
      ensures id == old(selectedId) ==>
                isLoading == old(isLoading) && error == old(error) && fetchesInFlight == old(fetchesInFlight)
      ensures id != old(selectedId) ==>
                isLoading && error == "" && fetchesInFlight == old(fetchesInFlight) + 1
    {
      var changed := id != selectedId;
      selectedId := id;
      if changed {
        DetailEffect();
      }
    }

    /**
     * A detail fetch settles: a parsed payload replaces `movie` wholesale and
     * leaves `error` as it is; a fault sets `error` to its message and leaves
     * `movie` as it is; loading is cleared either way.
     */
    method SettleDetail(o: Outcome<DetailPayload>)
      requires Valid() && fetchesInFlight > 0
      modifies this
      ensures Valid()
      ensures !isLoading
      ensures selectedId == old(selectedId)
      ensures fetchesInFlight == old(fetchesInFlight) - 1
      ensures DetailAttempt(o).Success? ==> movie == DetailAttempt(o).value && error == old(error)
      ensures DetailAttempt(o).Failure? ==> error == DetailAttempt(o).error && movie == old(movie)
    {
      var attempt := DetailAttempt(o);
      match attempt {
        case Success(data) => movie := data;
        case Failure(message) => error := message;
      }
      isLoading := false;
      fetchesInFlight := fetchesInFlight - 1;
    }

    /** The back button is rendered only with the details content, so only then can the view be closed. */
    predicate BackButtonShown(): (b: bool)
      reads this
      ensures b <==> Content in Panels(isLoading, error)
    {
      !isLoading && error == ""
    }

    /** What the details view shows. */
    function Shown(): (shown: set<Panel>)
      reads this
      requires Valid()
      ensures |shown| == 1
      ensures Content in shown <==> !isLoading && error == ""
    {
      ExactlyOnePanel(isLoading, error);
      Panels(isLoading, error)
    }
  }

  /** The `App` component: its state slots and the `MovieDetails` instance mounted in the right-hand box. */
  class App {
    var movies: seq<MovieSummary>
    var watched: seq<WatchedMovie>
    var isLoading: bool
    var error: string
    var query: string
    var selectedId: Option<string>
    var details: MovieDetails?
    ghost var searchesInFlight: nat

    /**
     * The search never shows a loader together with an error, never loads
     * with no request in flight, `watched` is never set (so stays empty), and
     * a details instance is mounted exactly when the selection is truthy.
     */
    ghost predicate Valid()
      reads this, details
    {
      && (isLoading ==> error == "")
      && (searchesInFlight == 0 ==> !isLoading)
      && watched == []
      && (details != null <==> Truthy(selectedId))
      && (details != null ==> details.Valid() && selectedId == Some(details.selectedId))
    }

    /** Initial state; the mount-time run of the search effect sees the empty query and changes nothing. */
    constructor ()
      ensures Valid()
      ensures movies == [] && watched == [] && !isLoading && error == "" && query == ""
      ensures selectedId == None && details == null && searchesInFlight == 0
    {
      movies := [];
      watched := [];
      isLoading := false;
      error := "";
      query := "";
      selectedId := None;
      details := null;
      searchesInFlight := 0;
    }

    /**
     * The search effect for the current query: a query shorter than three
     * characters clears the movies and the error, issues no request and
     * leaves the loading flag alone; a longer one starts a request with the
     * loading flag on and the error cleared, keeping the old movies.
     * Called only from `SetQuery` (the mount-time run is folded into the constructor).
     */
    method SearchEffect()
      requires Valid()
      modifies this
      ensures Valid()
      ensures query == old(query) && selectedId == old(selectedId) && details == old(details)
      ensures watched == old(watched)
      ensures |query| < MIN_QUERY_LENGTH ==>
                movies == [] && error == "" && isLoading == old(isLoading)
                && searchesInFlight == old(searchesInFlight)
      ensures |query| >= MIN_QUERY_LENGTH ==>
                isLoading && error == "" && movies == old(movies)
                && searchesInFlight == old(searchesInFlight) + 1
    {
      if |query| < MIN_QUERY_LENGTH {
        movies := [];
        error := "";
        return;
      }
      isLoading := true;
      error := "";
      searchesInFlight := searchesInFlight + 1;
    }

    /** Typing in the search box: the query is replaced, and the effect runs when it changed. */
    method SetQuery(q: string)
      requires Valid()
      modifies this
      ensures Valid()
      ensures query == q && selectedId == old(selectedId) && details == old(details)
      ensures watched == old(watched)
      ensures q == old(query) ==>
                movies == old(movies) && isLoading == old(isLoading) && error == old(error)
                && searchesInFlight == old(searchesInFlight)
      ensures q != old(query) && |q| < MIN_QUERY_LENGTH ==>
                movies == [] && error == "" && isLoading == old(isLoading)
                && searchesInFlight == old(searchesInFlight)
      ensures q != old(query) && |q| >= MIN_QUERY_LENGTH ==>
                isLoading && error == "" && movies == old(movies)
                && searchesInFlight == old(searchesInFlight) + 1
    {
      var changed := q != query;
      query := q;
      if changed {
        SearchEffect();
      }
    }

    /**
     * A search request settles, whichever one it is: success replaces the
     * movies and leaves the error as it is; every failure sets the error to
     * its message and leaves the movies; the loading flag is cleared in all cases.
     */
    method SettleSearch(o: Outcome<SearchPayload>)
      requires Valid() && searchesInFlight > 0
      modifies this
      ensures Valid()
      ensures !isLoading
      ensures query == old(query) && selectedId == old(selectedId) && details == old(details)
      ensures watched == old(watched)
      ensures searchesInFlight == old(searchesInFlight) - 1
      ensures SearchAttempt(o).Success? ==> movies == SearchAttempt(o).value && error == old(error)
      ensures SearchAttempt(o).Failure? ==> error == SearchAttempt(o).error && movies == old(movies)
    {
      var attempt := SearchAttempt(o);
      match attempt {
        case Success(results) => movies := results;
        case Failure(message) => error := message;
      }
      isLoading := false;
      searchesInFlight := searchesInFlight - 1;
    }

    /**
     * `handleSelectMovie(id)`: the selection toggles; the details instance is
     * unmounted when the selection becomes falsy, mounted fresh (and fetching)
     * when it becomes truthy, and otherwise told the new identifier, which
     * starts another fetch without clearing the movie already shown.
     */
    method SelectMovie(id: string)
      requires Valid()
      modifies this, details
      ensures Valid()
      ensures selectedId == Toggle(old(selectedId), id)
      ensures movies == old(movies) && isLoading == old(isLoading) && error == old(error)
      ensures query == old(query) && watched == old(watched) && searchesInFlight == old(searchesInFlight)
      ensures !Truthy(selectedId) ==> details == null
      ensures !Truthy(selectedId) && old(details) != null ==> unchanged(old(details))
      ensures Truthy(selectedId) && old(details) == null ==>
                details != null && fresh(details) && details.selectedId == id && details.movie == map[]
                && details.isLoading && details.error == "" && details.fetchesInFlight == 1
      ensures Truthy(selectedId) && old(details) != null ==>
                details == old(details) && details.selectedId == id && details.movie == old(details.movie)
                && details.isLoading && details.error == ""
                && details.fetchesInFlight == old(details.fetchesInFlight) + 1
    {
      selectedId := Toggle(selectedId, id);
      if !Truthy(selectedId) {
        details := null;
      } else if details == null {
        details := new MovieDetails(id);
      } else {
        details.ChangeSelectedId(id);
      }
    }

    /** `handleCloseMovie`: nothing is selected and the details instance is unmounted; nothing else changes. */
    method CloseMovie()
      requires Valid()
      modifies this
      ensures Valid()
      ensures selectedId == None && details == null
      ensures movies == old(movies) && isLoading == old(isLoading) && error == old(error)
      ensures query == old(query) && watched == old(watched) && searchesInFlight == old(searchesInFlight)
    {
      selectedId := None;
      details := null;
    }

    /**
     * A `Movie` item for `id` can be clicked: the list is on screen and one of
     * its hits carries that identifier.
     */
    predicate CanSelect(id: string): (b: bool)
      reads this
      ensures b ==> Content in Panels(isLoading, error) && movies != []
    {
      !isLoading && error == "" && exists i :: 0 <= i < |movies| && movies[i].imdbID == id
    }

    /** The back button of a mounted details view is on screen. */
    predicate CanClose(): (b: bool)
      reads this, details
      ensures b ==> details != null && Content in Panels(details.isLoading, details.error)
    {
      details != null && details.BackButtonShown()
    }

    /** What the results box shows. */
    function Shown(): (shown: set<Panel>)
      reads this, details
      requires Valid()
      ensures |shown| == 1
      ensures Content in shown <==> !isLoading && error == ""
      ensures ErrorMessage in shown <==> error != ""
    {
      ExactlyOnePanel(isLoading, error);
      Panels(isLoading, error)
    }

    /** The watched summary the app renders: always that of the empty list. */
    function WatchedSummary(): (s: Summary)
      reads this, details
      requires Valid()
      ensures s == Summary(0, 0.0, 0.0, 0.0)
    {
      Summarize(watched)
    }
  }

  /** The right-hand box shows the details exactly when a details view is mounted. */
  lemma SideMatchesMountedView(app: App)
    requires app.Valid()
    ensures Side(app.selectedId) == DetailsView <==> app.details != null
  {
  }
}
