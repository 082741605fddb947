/** The layout preference: a two-state toggle between desktop and vertical scrolling. */
module ViewMode {
  import opened Wrappers

  const Desktop := "mode-desktop"
  const Vertical := "mode-vertical"

  /** The mode the toggle button switches to from the current body class. */
  function Toggled(current: string): (next: string)
    ensures next == Desktop || next == Vertical
    ensures next != current
    ensures next == Vertical <==> current == Desktop
  {
    if current == Desktop then Vertical else Desktop
  }

  /** Toggling twice returns to either of the two modes. */
  lemma ToggleTwice(mode: string)
    requires mode == Desktop || mode == Vertical
    ensures Toggled(Toggled(mode)) == mode
  {
  }

  /**
   * The mode applied when the page loads: the stored one, or desktop when
   * nothing (or the empty string, which is falsy) is stored.
   */
  function StartupMode(stored: Option<string>): (mode: string)
    ensures mode != ""
    ensures stored.Some? && stored.value != "" ==> mode == stored.value
    ensures stored == None || stored == Some("") ==> mode == Desktop
  {
    match stored
    case Some(m) => if m != "" then m else Desktop
    case None => Desktop
  }
}
