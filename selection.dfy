/** The selected-movie slot of the app: at most one identifier, toggled on repeated selection. */
module Selection {
  import opened Wrappers

  /**
   * `handleSelectMovie(id)`: choosing the identifier that is already selected
   * clears the selection; choosing any other identifier selects it.
   */
  function Toggle(current: Option<string>, id: string): (next: Option<string>)
    ensures next == None <==> current == Some(id)
    ensures next != None ==> next == Some(id)
  {
    if current == Some(id) then None else Some(id)
  }

  /** JavaScript truthiness of `selectedId`: `null` and the empty string are falsy. */
  predicate Truthy(selected: Option<string>): (b: bool)
    ensures selected == None ==> !b
    ensures selected.Some? ==> (b <==> |selected.value| > 0)
  {
    selected.Some? && selected.value != ""
  }

  /** Selecting the same identifier twice in a row, from any other state, ends with nothing selected. */
  lemma SelectTwiceDeselects(current: Option<string>, id: string)
    requires current != Some(id)
    ensures Toggle(current, id) == Some(id)
    ensures Toggle(Toggle(current, id), id) == None
  {
  }

  /** Selecting twice starting from the identifier itself comes back to it. */
  lemma SelectTwiceFromSelected(id: string)
    ensures Toggle(Toggle(Some(id), id), id) == Some(id)
  {
  }
}
