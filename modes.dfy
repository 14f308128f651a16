/** The two modes of a session and the border style each pane takes from it. */
module Modes {
  import opened Wrappers

  /** `Query`: keys edit the query. `Browse`: keys move around the results. */
  datatype Mode = Query | Browse

  /** The only transition: Tab flips the mode. */
  function Toggle(m: Mode): (r: Mode)
    ensures r != m
  {
    match m
    case Query => Browse
    case Browse => Query
  }

  /** Toggling twice is the identity. */
  lemma ToggleInvolutive(m: Mode)
    ensures Toggle(Toggle(m)) == m
  {
  }

  /** The only colour the controller uses. */
  datatype Color = Green

  /** A border style: a foreground colour, or the terminal's default. */
  datatype Style = Style(fg: Option<Color>)

  const DefaultStyle: Style := Style(None)

  predicate IsHighlighted(st: Style)
  {
    st.fg == Some(Green)
  }

  /** Border style of the results pane: green in browse mode, default otherwise. */
  function BrowserStyle(m: Mode): (st: Style)
    ensures IsHighlighted(st) <==> m == Browse
    ensures !IsHighlighted(st) ==> st == DefaultStyle
  {
    match m
    case Browse => DefaultStyle.(fg := Some(Green))
    case Query => DefaultStyle
  }

  /** Border style of the query pane: green in query mode, default otherwise. */
  function QueryStyle(m: Mode): (st: Style)
    ensures IsHighlighted(st) <==> m == Query
    ensures !IsHighlighted(st) ==> st == DefaultStyle
  {
    match m
    case Query => DefaultStyle.(fg := Some(Green))
    case Browse => DefaultStyle
  }

  /** In every mode exactly one of the two panes is highlighted. */
  lemma ExactlyOnePaneHighlighted(m: Mode)
    ensures IsHighlighted(QueryStyle(m)) != IsHighlighted(BrowserStyle(m))
  {
  }
}
