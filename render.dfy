/**
 * The render guards: which panel of a box is on screen for given state
 * values. The results box of the app and the details view use the same
 * three-way guard on a loading flag and an error message.
 */
module Render {
  import opened Wrappers
  import opened Selection

  /** The panels a loading/error box can show: the spinner, its content, the error message. */
  datatype Panel = Loader | Content | ErrorMessage

  /** What fills the right-hand box of the app. */
  datatype SideView = DetailsView | WatchedView

  /**
   * `isLoading && <Loader/>`, `!isLoading && !error && content`, `error && <ErrorMsg/>`:
   * the content is shown exactly when nothing is loading and there is no
   * error, the error panel exactly when there is one, so never both.
   */
  function Panels(isLoading: bool, error: string): (shown: set<Panel>)
    ensures Loader in shown <==> isLoading
    ensures Content in shown <==> !isLoading && error == ""
    ensures ErrorMessage in shown <==> error != ""
    ensures !(Content in shown && ErrorMessage in shown)
    ensures shown != {}
  {
    (if isLoading then {Loader} else {})
    + (if !isLoading && error == "" then {Content} else {})
    + (if error != "" then {ErrorMessage} else {})
  }

  /** When a loading box always has its error cleared, exactly one panel is on screen. */
  lemma ExactlyOnePanel(isLoading: bool, error: string)
    requires isLoading ==> error == ""
    ensures |Panels(isLoading, error)| == 1
  {
  }

  /** `selectedId ? <MovieDetails/> : summary and list`: details replace the watched views exactly when the selection is truthy. */
  function Side(selectedId: Option<string>): (v: SideView)
    ensures v == DetailsView <==> Truthy(selectedId)
    ensures selectedId == None ==> v == WatchedView
  {
    if Truthy(selectedId) then DetailsView else WatchedView
  }
}
