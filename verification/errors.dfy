/** The failures a tool reports. The server turns each into a JSON-RPC
    internal error whose `data` is the message text; decorations (emoji,
    Markdown) of the messages are not modelled. */
module ToolErrors {
  import opened Decimal

  datatype ToolError =
    | MissingParameter(name: string)
    | EmptyQuery
    | SearchFailed(reason: string)
    | EmptyUrl
    | FetchFailed(reason: string)
    | InvalidLocation(loc: nat, maxIndex: nat)
    | EmptyPattern
    | PageNotInSession(url: string)
    | NoActiveSession
    | NoPageOpen

  /** The text carried to the caller. Provider and fetcher failures carry
      their own text unchanged. */
  function Message(e: ToolError): string {
    match e
    case MissingParameter(name) => "Missing required parameter: " + name
    case EmptyQuery => "Error: Search query cannot be empty.\n\nPlease provide a search term."
    case SearchFailed(reason) => reason
    case EmptyUrl => "Error: URL is required."
    case FetchFailed(reason) => reason
    case InvalidLocation(loc, maxIndex) =>
      "Invalid location parameter: " + Dec(loc) + ". Cannot exceed page maximum of " + Dec(maxIndex) + "."
    case EmptyPattern => "Error: Search pattern cannot be empty."
    case PageNotInSession(url) => "Page not found in session: " + url + "\nPlease open the page first."
    case NoActiveSession => "No active session found."
    case NoPageOpen => "No page is currently open.\nPlease open a page first using the 'open' tool."
  }
}
