# Popcorn: search, selection and detail state, in Dafny

This project models the state machine inside `src/App.js` of the Popcorn movie browser. A user types a
query. Once it is three characters or longer, a search request goes to the movie catalog. The response
becomes either a list of hits or an error message. Choosing a hit selects it, and choosing it again
deselects it. A selected movie mounts a `MovieDetails` view, which fetches the movie's detail record.
The right-hand box shows a watched summary (a count and three averages) whenever nothing is selected.

The model has these parts:

- `Aggregate` (`average.dfy`): the `average` reducer, proved equal to the arithmetic mean. It is 0 for an
  empty list and stays within the bounds of its values.
- `Watched` (`watched.dfy`): watched records and the summary built from them.
- `Fetch` (`fetch.dfy`): a request with the network taken out. Whatever `fetch` and `res.json()`
  produced is an `Outcome` value: a rejection with a message, or a response with its `ok` flag and
  its body. `SearchAttempt` and `DetailAttempt` are the two `try` blocks. They turn an outcome into the
  value that gets stored or the message that gets caught.
- `Selection` (`selection.dfy`): the toggle behind `handleSelectMovie`, and JavaScript truthiness of
  the selected identifier.
- `Render` (`render.dfy`): the render guards. The loader, the content and the error panel are chosen from
  `isLoading` and `error`. The right-hand box is chosen from `selectedId`.
- `Components` (`components.dfy`): the classes `App` and `MovieDetails`, whose fields are the React state
  slots. Each request is split into two methods. An effect method starts it (everything before the first
  `await`), and a `Settle…` method applies its outcome. Any number of requests can be in flight, and they
  can settle in any order. No sequence number guards a settle, so a stale response still overwrites the
  state, as in the program. Ghost counters only ensure that a settle follows a start.
- `Races` (`races.dfy`): step-by-step runs that show the consequences of that missing guard. Each run
  clicks only a movie that is listed on screen, and closes the details only while the back button is shown. An older
  search can overwrite newer hits. The loader can go off while a request is still pending. A short query
  can end up listing hits. An older failure can hide newer hits. A stale detail record can be shown for
  another movie. A settle that arrives after the details were closed reaches only the unmounted view.

Details of the code that the model keeps:

- The non-ok search message is "Something went wrong wih fetching movies", with the misspelling.
- The short-query path does not touch `isLoading`.
- `selectedId ?` tests JavaScript truthiness, so an empty identifier counts as no selection.
- `setWatched` is never called, so `watched` is always empty. The app's `Valid()` states this.

## Model

| member | source | states |
|---|---|---|
| `Aggregate.Average` | src/App.js:4-5 | The reduction equals the arithmetic mean of the list, and is 0 for an empty list. |
| `Aggregate.ReduceAddsShareOfSum` | src/App.js:4-5 | Adding each element divided by the array length adds the sum divided by the length to the accumulator. |
| `Aggregate.MeanWithin` | src/App.js:4-5 | The mean of a non-empty list lies between any lower and upper bound of its elements. |
| `Aggregate.MeanOfConstant` | src/App.js:4-5 | The mean of a non-empty list of equal values is that value. |
| `Aggregate.AverageOfTwoFourSix` | src/App.js:4-5 | The average of 2, 4 and 6 is 4. |
| `Aggregate.Reduce` | src/App.js:5 | The reduction over no elements returns its initial accumulator, so `average([])` is 0. |
| `Watched.ImdbRatings` | src/App.js:208 | The mapped list has one critic rating per watched entry, in the same order. |
| `Watched.UserRatings` | src/App.js:209 | The mapped list has one user rating per watched entry, in the same order. |
| `Watched.Runtimes` | src/App.js:210 | The mapped list has one runtime per watched entry, in the same order. |
| `Watched.Summarize` | src/App.js:206-219 | The count is the list length and each figure is the mean of its field. An empty list gives zeros. |
| `Watched.SummaryUserRatingOnScale` | src/App.js:209 | User ratings on 1..10 give an average user rating on 1..10. |
| `Fetch.SearchAttempt` | src/App.js:32-43 | A search succeeds exactly when the response is ok, parses, and its `Response` is not "False", and then yields `Search` unchanged. Otherwise it fails with the non-ok message, "Movie not found", or the fault's own message. |
| `Fetch.SearchStatusCheckedBeforeBody` | src/App.js:32-36 | A non-ok search response fails the same way whatever its body is, because the body is never read. |
| `Fetch.SearchFailuresDistinguishable` | src/App.js:34-38 | When the fault messages differ from both literals, the error is the non-ok message exactly for non-ok responses, and "Movie not found" exactly for ok payloads with `Response` "False". |
| `Fetch.DetailAttempt` | src/App.js:313-317 | A detail request succeeds exactly when a body was parsed, and yields that payload whole. It fails only on a rejection or an unparsable body, with that message. |
| `Fetch.DetailIgnoresStatus` | src/App.js:313-315 | The detail result does not depend on the response's `ok` flag. |
| `Fetch.DetailAcceptsNotFoundPayload` | src/App.js:313-315 | A detail payload with `Response` "False" is accepted as the movie, while the same flag fails a search whatever its list of hits. |
| `Selection.Toggle` | src/App.js:18-20 | The new selection is empty exactly when the chosen id was already selected. Otherwise it is the chosen id. |
| `Selection.SelectTwiceDeselects` | src/App.js:18-20 | From any other state, choosing the same id twice selects it and then clears the selection. |
| `Selection.SelectTwiceFromSelected` | src/App.js:18-20 | Choosing the selected id twice comes back to it. |
| `Render.Panels` | src/App.js:68-70 | The loader is shown iff loading. The content is shown iff not loading and no error. The error panel is shown iff there is an error, so content and error never show together. |
| `Render.ExactlyOnePanel` | src/App.js:68-70 | When loading implies an empty error, exactly one panel is shown. |
| `Selection.Truthy` | src/App.js:75 | `null` is falsy, and an identifier is truthy exactly when it is non-empty. |
| `Render.Side` | src/App.js:74-80 | The details replace the watched summary and list exactly when the selection is truthy. |
| `Components.MovieDetails.constructor` | src/App.js:298-325 | On mount, `movie` is `{}`, and the first detail request is in flight with the loader on and no error. |
| `Components.MovieDetails.DetailEffect` | src/App.js:308-313 | Starting a detail request turns the loader on, clears the error and keeps the current movie. |
| `Components.MovieDetails.ChangeSelectedId` | src/App.js:323-325 | A new selected id starts another request, and an unchanged id does nothing. The old movie stays until a settle replaces it. |
| `Components.MovieDetails.SettleDetail` | src/App.js:310-320 | A parsed payload replaces `movie` wholesale and leaves `error`. A fault sets `error` and leaves `movie`. Loading is off afterwards in both cases. |
| `Components.MovieDetails.BackButtonShown` | src/App.js:330-332 | The back button is on screen exactly when the details content is. |
| `Components.MovieDetails.Shown` | src/App.js:329-352 | In every reachable state the details view shows exactly one panel, and the content iff not loading with no error. |
| `Components.App.constructor` | src/App.js:11-16 | Initial state: no movies, no watched entries, not loading, no error, empty query, nothing selected. |
| `Components.App.SearchEffect` | src/App.js:26-57 | A query shorter than 3 clears the movies and the error, issues no request and leaves `isLoading`. A longer query starts a request with the loader on and the error cleared, and keeps the movies. |
| `Components.App.SetQuery` | src/App.js:103-109 | The query is replaced, and the search effect runs only when it changed. |
| `Components.App.SettleSearch` | src/App.js:32-46 | Any pending search, however stale, applies its outcome. Success replaces the movies and leaves the error. A failure sets the error and leaves the movies. The loader is off afterwards. |
| `Components.App.SelectMovie` | src/App.js:18-20 | The selection toggles and the app's other slots are unchanged. The details view is unmounted (and left exactly as it was), mounted fresh, or told the new id (which starts another fetch). |
| `Components.App.CloseMovie` | src/App.js:22-24 | The selection is cleared and the details are unmounted. Nothing else changes. |
| `Components.App.CanSelect` | src/App.js:69 | A movie item can be clicked only while the list is on screen and the list is non-empty. |
| `Components.App.CanClose` | src/App.js:330-332 | The details can be closed only while a details view is mounted and shows its content. |
| `Components.SideMatchesMountedView` | src/App.js:75 | In every reachable app state, the details are shown exactly when a details view is mounted. |
| `Components.App.Shown` | src/App.js:67-71 | In every reachable app state the results box shows exactly one panel. The list is shown iff not loading with no error, and the error iff it is non-empty. |
| `Components.App.WatchedSummary` | src/App.js:206-219 | The summary is that of the empty list (count 0, averages 0), because `watched` is never set. |
| `Races.TypicalSearch` | src/App.js:26-57 | "ba" gives an empty list with no loader. "batman" turns the loader on, and its success shows exactly the hits. |
| `Races.StaleSearchOverwrites` | src/App.js:26-57 | If an older search settles after a newer one, its hits replace those of the current query. |
| `Races.LoaderClearedWhilePending` | src/App.js:44-46 | The first of two overlapping searches to settle turns the loader off while one request is still pending. |
| `Races.ShortQueryDuringSearch` | src/App.js:49-53 | Shortening the query during a search clears the list but keeps the loader. The pending search then lists hits for a query under 3 characters. |
| `Races.StaleFailureHidesResults` | src/App.js:40-43 | If an older search fails after a newer one succeeded, the new hits are kept but the error panel hides them. |
| `Races.StaleDetailOverwrites` | src/App.js:308-325 | After a search lists two movies, clicking both and settling the first request last shows the first record, as the only panel, while the second movie is selected. |
| `Races.SettleAfterClose` | src/App.js:75 | Two detail requests overlap. The first to settle shows the back button, and closing then unmounts the view with one request still pending. That request changes only the unmounted view, and the watched views stay. |
| `Races.SelectSameTwice` | src/App.js:18-20 | Clicking the same listed movie twice leaves nothing selected and shows the watched views. The request still pending then changes only the unmounted view. |
| `Races.DetailNotFoundShownAsMovie` | src/App.js:313-317 | A "not found" detail payload, even on a non-ok response, is shown as the movie with no error. |

## Left out

- The network is not modelled: `fetch`, the request URLs built with the API key `KEY`, and JSON parsing. Each settle takes the outcome they produced as a parameter.
- React scheduling is not modelled: render timing, batching of setters and real asynchrony. A setter that changes a dependency runs its effect at once. Each settle is one atomic step. The gap between `fetch` resolving and `res.json()` resolving is folded into that step.
- A state update on an unmounted `MovieDetails`, which React ignores, is modelled by the app dropping its reference to the instance.
- Aggregate.Average: computes over exact reals, so the double rounding of `acc + cur / arr.length` is not captured.
- Components.App.SearchEffect: the length test counts Unicode scalar values, while JavaScript's `length` counts UTF-16 code units. The two differ for characters outside the Basic Multilingual Plane.
- Fetch.SearchAttempt: a payload whose `Search` field is missing (which would store `undefined`) is not modelled. `Search` is always a list.
- Adding to and removing from the watched list is not modelled, because the program never calls `setWatched`.
- `StarRating` is not modelled. `<StarRating maxRating={10} size={24} />` (src/App.js:344) gets no callback, so nothing reads the rating it collects.
- The markup of these components is not modelled: `Navbar`, `Search`, `Logo`, `NumResults`, `Main`, `MovieList`, `Movie`, `WatchedMoviesList`, `WatchedMovie`, `Loader`, `ErrorMsg`, and `MovieDetails`. Two of them raise events, and those events are modelled. Typing in `Search` is `App.SetQuery`. A click on a `Movie` is `App.SelectMovie`, guarded in the runs by `CanSelect`.
- Collapsing a `Box` with its open/close `Button` is not modelled. Collapsing the right box unmounts `MovieDetails` while the selection stays, and reopening it mounts a fresh view that fetches again. Collapsing the left box hides all three panels. `App.Valid`, `App.Shown` and `MovieDetails.Shown` assume both boxes are open.
- Components.App.SelectMovie: may be called in any state. The program calls it only from a listed `Movie` item, which is what `CanSelect` states. The runs in `Races` check `CanSelect` before every click.
- Components.App.CloseMovie: may be called in any state. The program calls it only from the back button, which is what `CanClose` states. The runs in `Races` close only when `CanClose` holds.
