/** The connection dot next to a conversation: red on an error, otherwise green or gray by the
    connection flag, with the caller's extra class names appended. */
module RealtimeStatus {
  import opened Wrappers
  import opened Records

  datatype Colour = Red | Green | Gray

  /** The rendered span: its colour, its label (used as both `aria-label` and `title`) and the
      extra class names it carries. */
  datatype Indicator = Indicator(colour: Colour, ariaLabel: string, extraClass: string)

  /** An empty or null error is no error. */
  function StatusIndicator(isConnected: bool, error: Option<string>, className: string): (r: Indicator)
    ensures r.extraClass == className
    ensures r.colour == Red <==> Truthy(error)
    ensures r.colour == Red <==> r.ariaLabel == "Connection Error"
    ensures r.colour == Green <==> !Truthy(error) && isConnected
    ensures r.colour == Green <==> r.ariaLabel == "Online"
    ensures r.colour == Gray <==> !Truthy(error) && !isConnected
    ensures r.colour == Gray <==> r.ariaLabel == "Offline"
  {
    if Truthy(error) then Indicator(Red, "Connection Error", className)
    else if isConnected then Indicator(Green, "Online", className)
    else Indicator(Gray, "Offline", className)
  }

  /** An error wins over the connection flag. */
  lemma ErrorIgnoresConnection(error: Option<string>, className: string)
    requires Truthy(error)
    ensures StatusIndicator(true, error, className) == StatusIndicator(false, error, className)
  {
  }

  /** A null error and an empty one show the same indicator. */
  lemma EmptyErrorIsNoError(isConnected: bool, className: string)
    ensures StatusIndicator(isConnected, Some(""), className) == StatusIndicator(isConnected, None, className)
  {
  }
}
