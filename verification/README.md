# A verified model of the browser-tools MCP server

The server speaks JSON-RPC 2.0 over HTTP and offers three "browser" tools to
a language model:

- `search` queries the web;
- `open` fetches a page and lists it with numbered lines for citation;
- `find` looks for a pattern, ignoring case, in a page already opened.

Each caller has a session, named by the `Mcp-Session-Id` header. It records
the page opened last and every page fetched so far. A serverless adapter in
front of the router maps the incoming method and URI and decides whether a
response body is text.

This project models, as pure functions over immutable values:

- the dispatcher, with its error codes;
- the `tools/call` path;
- the registry of the three tools;
- the session store and its `session/terminate` and `DELETE` handlers;
- the three tools;
- the adapter's method mapping, routing-path derivation and text-content
  test.

The network is a parameter. The page fetcher and the search provider are
functions held in an `Env` value.

Modules, in dependency order:

| file | module | contents |
|---|---|---|
| wrappers.dfy | `Wrappers` | `Option`, `Result` |
| json.dfy | `Json` | decoded JSON values; `get`, `as_str`, `as_u64`, `as_i64` |
| text.dfy | `Text` | `trim`, `starts_with`, `find`, `rfind`, `contains`, ASCII lowercasing, UTF-8 length |
| lines.dfy | `LineSplit` | Rust's `str::lines` |
| decimal.dfy | `Decimal` | decimal rendering of line numbers and its parser |
| sessions.dfy | `Sessions` | `BrowserSession`, the session store, its invariant |
| errors.dfy | `ToolErrors` | the failures a tool reports and their texts |
| registry.dfy | `Registry` | the `TOOLS` catalogue |
| paging.dfy | `Paging` | the line window `open` shows; the `L<n>: ` labels |
| finder.dfy | `Finder` | matching lines, context windows, the cap of ten rendered matches |
| tools.dfy | `Tools` | `search`, `open`, `find`, `execute_tool` |
| http.dfy | `Http` | header lookup, `HeaderValue::to_str`, the session id |
| rpc.dfy | `Rpc` | `handle_mcp_request`, `tools/call`, `session/terminate`, `DELETE /sessions/{id}` |
| lambda.dfy | `Lambda` | method mapping, routing path, `is_text_content` |

Some behaviours of the code are easy to miss, and the model follows the code in each:

- A `tools/call` whose required argument is missing or is not a string
  fails inside the tool. It is reported as an internal error (-32603), not
  as invalid params (-32602). See `Tools.RequiredArgumentsEnforced` and
  `Rpc.ToolsCall`.
- A body without a `jsonrpc` field does not decode into the request
  structure. It is answered with a parse error (-32700), not an invalid
  request (-32600). The model folds this case into `Body.Undecodable`.
- `find` in a session that was never opened, or was terminated, answers
  "No active session found." It does not answer "No page is currently
  open." Sessions are created only by `open`, so the second message cannot
  occur. See `Tools.NoPageOpenUnreachable` and `Rpc.TerminateThenFind`.
- A negative, fractional or non-numeric `topn` is not a `u64`, so it takes
  the default 10. It is not clamped to 1.

## Model

| member | source | states |
|---|---|---|
| Json.Get | src/mcp_server.rs:578-579 | a member is found exactly when the value is an object holding the key, and it is the value stored under that key |
| Json.AsStr | src/mcp_server.rs:578-580 | a string is read exactly when the member is present and is a JSON string, and it is that string |
| Json.AsU64 | src/mcp_server.rs:586-588 | a number is read exactly when it is an integer in [0, 2^64), and it is that integer |
| Json.AsI64 | src/mcp_server.rs:590-592 | a number is read exactly when it is an integer in [-2^63, 2^63), and it is that integer |
| Text.TrimStart | src/mcp_server.rs:476 | the result is a suffix of the input; what was dropped is all whitespace; the result does not start with whitespace |
| Text.TrimEnd | src/mcp_server.rs:476 | the result is a prefix of the input; what was dropped is all whitespace; the result does not end with whitespace |
| Text.FindSub | src/main.rs:97 | `find` returns the first position where the needle occurs, and nothing only when it occurs nowhere |
| Text.LastIndexOf | src/main.rs:99 | the last position of a character: it is there and does not occur after it |
| Text.LowerForgetsCase | src/mcp_server.rs:727-731 | lowercasing erases the difference between upper- and lower-case spellings, and is idempotent |
| Text.Utf8Len | src/mcp_server.rs:146 | a string's byte length lies between its character count and four times that |
| LineSplit.Lines | src/mcp_server.rs:622-623 | no line holds a '\n', and there are no more lines than characters |
| LineSplit.LinesOfTerminated | src/mcp_server.rs:622 | lines each ended by '\n' split back into exactly those lines, when none ends in '\r' |
| LineSplit.LinesOfCrlfTerminated | src/mcp_server.rs:622 | lines each ended by "\r\n" split back into exactly those lines, even when a line itself ends in '\r' |
| LineSplit.FinalNewlineOptional | src/mcp_server.rs:726 | adding a final '\n' to text that does not end a line leaves its lines unchanged |
| LineSplit.LineCount | src/mcp_server.rs:622-623 | the number of lines is the number of '\n', plus one when the text does not end in '\n' |
| Decimal.ParseDecOfDec | src/mcp_server.rs:646 | a rendered line number parses back to itself |
| Sessions.Record | src/mcp_server.rs:613-619 | `open` makes the page current and caches it, creating the session if needed; no other session or cached page changes |
| Sessions.Remove | src/mcp_server.rs:342-345 | removal forgets exactly one session; an unknown id is no error; the others are untouched |
| Sessions.RemoveIdempotent | src/mcp_server.rs:342-345 | removing a session twice is the same as removing it once |
| Sessions.RecordKeepsInvariant | src/mcp_server.rs:613-619 | after `open`, every stored session still has its current page among its cached pages |
| Sessions.RemoveKeepsInvariant | src/mcp_server.rs:152-153 | removing a session keeps every remaining session consistent |
| Registry.Definition | src/mcp_server.rs:57-103 | every tool has its entry in the registry |
| Registry.LookupInRegistry | src/mcp_server.rs:57-103 | the registry holds exactly the names "search", "open" and "find", each under its own entry |
| Registry.Lookup | src/mcp_server.rs:420-428 | a tool name is known exactly when it is one of the three, and it leads to the tool of that name |
| Registry.LookupFindsEveryTool | src/mcp_server.rs:57-103 | every registered tool is found under its published name |
| Paging.Paginate | src/mcp_server.rs:622-638 | fails exactly when `loc` is at or past the line count, reporting `loc` and the last index; otherwise shows lines `loc` up to `min(loc+num_lines, total)`, or all the rest for -1 |
| Paging.WholeDocument | src/mcp_server.rs:586-592 | with the default `loc` and `num_lines`, `open` lists the whole document and fails only on a document without lines |
| Paging.NoticeIndices | src/mcp_server.rs:649-654 | the truncation notice appears exactly when lines remain; it gives the true last index and the index just before the next unread line |
| Paging.ContinueReading | src/mcp_server.rs:632-654 | reopening at the end of a truncated listing succeeds and continues it with no gap and no repeat |
| Paging.ListingLineRoundTrip | src/mcp_server.rs:645-647 | an `L<n>: text` line reads back as exactly `n` and `text` |
| Paging.ListingCitesAbsoluteLines | src/mcp_server.rs:638-647 | the i-th listed line cites line `loc + i` of the document, with that line's text |
| Finder.MatchesFrom | src/mcp_server.rs:730-750 | the matching lines from a start index, each matching, ascending, none missed |
| Finder.Matches | src/mcp_server.rs:730-750 | a line index is reported exactly when that line contains the pattern ignoring case; the indices ascend |
| Finder.MatchesIgnorePatternCase | src/mcp_server.rs:727-731 | two patterns that lowercase alike find the same lines |
| Finder.SortedByMembership | src/mcp_server.rs:730-750 | two ascending index lists with the same members are equal, so the match list is determined by which lines match |
| Finder.ContextWindow | src/mcp_server.rs:733-746 | a match's context is exactly the lines within two of it, clipped to the page, consecutive, with their own texts; only the match is marked |
| Finder.Report | src/mcp_server.rs:752-768 | "no matches" exactly when no line matches; otherwise the full count, the first ten matches in order with their contexts, and the number left out |
| Finder.ShownPlusSuppressed | src/mcp_server.rs:758-768 | rendered and left-out matches add up to the count, and at most ten are rendered |
| Tools.TopN | src/mcp_server.rs:480-484 | `topn` lies in [1, 50]; it is 10 when `topn` is not a `u64`, and the given value when that value is in range |
| Tools.Entries | src/mcp_server.rs:517-532 | one listing entry per provider result |
| Tools.EntriesFaithful | src/mcp_server.rs:517-532 | entries are numbered 1..n in provider order, omit exactly the empty snippets, and give back the provider's results |
| Tools.Search | src/mcp_server.rs:471-539 | a missing or non-string query and a blank query fail before the provider is asked; otherwise the call succeeds exactly when the provider, given the query and `topn`, succeeds: an empty answer is "no results", any other is listed in full, and a provider failure is passed on with its reason |
| Tools.Open | src/mcp_server.rs:577-660 | missing or blank URLs fail without touching the store; otherwise a failure to obtain the content is returned with the store unchanged, and obtained content is recorded in the session and listed from `loc` |
| Tools.Obtain | src/mcp_server.rs:597-610 | a page cached in the session is used as it is; otherwise the fetch decides, and its failure message is passed on |
| Tools.OpenCachedIgnoresFetcher | src/mcp_server.rs:602-610 | a page cached in the session is served without the network |
| Tools.OpenRecordsBeforeCheckingLoc | src/mcp_server.rs:613-630 | once the content is obtained the page is recorded even if `loc` is then rejected, and the call fails exactly when `loc` is past the last line |
| Tools.ReopenServesCache | src/mcp_server.rs:602-619 | opening the same URL again serves the first copy, whatever the network now returns, and leaves the store as it was |
| Tools.FindSource | src/mcp_server.rs:697-721 | with a URL: that cached page, "page not found in session", or "no active session"; without one: the current page, "no page open", or "no active session" |
| Tools.Find | src/mcp_server.rs:687-773 | missing or blank patterns fail first; otherwise the call fails exactly when the session selects no page, with that error, and else reports on the selected page |
| Tools.OpenThenFind | src/mcp_server.rs:710-714 | after `open` obtains a page, `find` without a URL in that session searches exactly that page |
| Tools.NoPageOpenUnreachable | src/mcp_server.rs:712-717 | in a store built by `open`, "no page is currently open" is never reported |
| Tools.Execute | src/mcp_server.rs:456-469 | `search` runs the search tool, `open` the open tool and `find` the find tool: each outcome, success or failure, is passed on as it is; only `open` changes the store, and then exactly as the open tool does; every tool keeps the store's invariant |
| Tools.RequiredArgumentsEnforced | src/mcp_server.rs:57-103 | every argument the registry marks required makes its tool fail with "missing required parameter" when absent or not a string |
| Tools.DefaultsAgree | src/mcp_server.rs:480-484 | absent `topn`, `loc` and `num_lines` take exactly the defaults the registry publishes (10, 0, -1) |
| Http.HeaderGet | src/mcp_server.rs:206-208 | the value is the one stored under the first name equal ignoring ASCII case; nothing only when no such name exists |
| Http.HeaderGetIgnoresCase | src/mcp_server.rs:207-208 | looking a header up depends only on the lowercased name, so the second lookup adds nothing |
| Http.ToStr | src/mcp_server.rs:209 | a header value reads as text exactly when all its bytes are visible ASCII, space or tab, and then byte for byte |
| Http.SessionIdOf | src/mcp_server.rs:206-211 | the session is the header's text when it is present and readable, otherwise "default" |
| Rpc.SuccessResponse | src/mcp_server.rs:775-782 | a well-formed result envelope echoing the id |
| Rpc.ErrorResponse | src/mcp_server.rs:784-795 | a well-formed error envelope echoing the id, with code, message and data |
| Rpc.ToolsCall | src/mcp_server.rs:388-454 | -32602 exactly when params or a string tool name is missing; -32601 exactly for an unknown tool; otherwise the tool's outcome, -32603 exactly when it fails; the store changes only through the tool |
| Rpc.TerminateTarget | src/mcp_server.rs:332-338 | the session to end is `params.sessionId` when that is a string, and "unknown" otherwise |
| Rpc.Terminate | src/mcp_server.rs:328-359 | the named session, or "unknown", is removed, no other session is removed and none is added; the reply echoes the id and the name |
| Rpc.TerminateIdempotent | src/mcp_server.rs:342-345 | terminating the same session twice gives the same reply and store as once |
| Rpc.Dispatch | src/mcp_server.rs:200-285 | every reply is well-formed and echoes the decoded id; -32700 exactly for undecodable bodies; -32600 exactly for unreadable or empty bodies and wrong versions; `tools/call` and `session/terminate` go to their handlers, `initialize`, `tools/list`, `ping` and `notifications/cancelled` answer with their payloads, and only the first two can change the store; the store invariant is kept |
| Rpc.UnknownMethodRejected | src/mcp_server.rs:275-283 | an unknown method gets "method not found" naming it, and the store is untouched |
| Rpc.FindLeavesStore | src/mcp_server.rs:697-721 | a `find` call never changes the store, whatever its outcome |
| Rpc.TerminateThenFind | src/mcp_server.rs:706-720 | after `session/terminate` names the caller's session, `find` there fails with "No active session found." as an internal error |
| Rpc.HandleMcp | src/mcp_server.rs:200-211 | requests run in the session the `Mcp-Session-Id` header names, whatever its letter case, and in "default" when the header is absent or not readable text; replies are well-formed and the store invariant is kept |
| Rpc.DeleteSession | src/mcp_server.rs:142-167 | 400 exactly for an empty id or one over 100 UTF-8 bytes, with the store untouched; otherwise that session is removed and named in the reply |
| Rpc.DeleteLengthBounds | src/mcp_server.rs:146-149 | any id of 1 to 25 characters is accepted, and any of more than 100 characters is rejected |
| Lambda.MapMethod | src/main.rs:82-91 | each of the seven known names maps to its method; every other name maps to GET |
| Lambda.MapMethodRoundTrip | src/main.rs:82-91 | every method survives the mapping of its own name |
| Lambda.NonEmpty | src/main.rs:113-114 | an empty path becomes "/", any other path is kept |
| Lambda.RoutePathAsWritten | src/main.rs:94-114 | the route the code computes is never empty, and it is "/" or a tail of the request URI |
| Lambda.BarePathAsWritten | src/main.rs:104-111 | as written, a bare path loses its first five characters when they are "/prod", whatever follows ("/prod" alone becomes "/"); any other bare path is kept |
| Lambda.StageInsideSegmentAsWritten | src/main.rs:106-107 | as written, a bare path whose first segment only begins with "prod" is cut inside that segment and stops being an absolute path ("/products" gives "ucts") |
| Lambda.FullUriWithStageAsWritten | src/main.rs:95-98 | as written, a full URI is cut after the first "/prod" anywhere in it |
| Lambda.FullUriWithoutStageAsWritten | src/main.rs:99-103 | as written, a full URI without "/prod" keeps only its suffix from the last '/', or becomes "/" |
| Lambda.HostStartingWithProdAsWritten | src/main.rs:97-98 | as written, `https://prod<rest>` routes to `<rest>`: the stage is found inside the host name |
| Lambda.NestedPathAsWritten | src/main.rs:99-100 | as written, a full URI without "/prod" routes to its last segment only, losing nested paths |
| Lambda.RoutePath | src/main.rs:94-114 | the corrected routing path is never empty; on bare paths it agrees with the code except that a first segment merely beginning with "prod" is kept whole |
| Lambda.StripStage | src/main.rs:106-107 | corrected: the stage is dropped only as a whole leading segment ("/prod" or "/prod/…"); any other path is kept |
| Lambda.RoutePathRecoversPath | src/main.rs:94-114 | corrected: for any http(s) URI and any host, a path behind the stage segment routes to that path, a path not itself under the stage routes to itself (so `https://h/products` gives `/products`), and the stage alone routes to "/" |
| Lambda.BarePathRecovered | src/main.rs:104-111 | corrected: a bare path behind the stage segment routes to that path, and one not itself under the stage routes to itself |
| Lambda.AdaptRequest | src/main.rs:82-114 | the router always receives a non-empty path |
| Lambda.IsTextContent | src/main.rs:177-186 | a body is binary exactly when a readable content type is present and starts with none of "text/", "application/json" and "application/javascript" |
| Lambda.FirstContentTypeDecides | src/main.rs:177-186 | only the first content-type header, under any spelling of its name, decides; an unreadable one means text |

## Left out

- The network is not modelled. This covers the `reqwest` client, the HTTP
  status checks, the HTML-to-text conversion (`fetch_page_content`) and the
  scraping of search result pages (`parse_search_results`). The fetcher and
  the provider are parameters, and their failures carry their text unchanged.
- Failing to build the HTTP client in `execute_tool` is not modelled. Its
  inputs are constants.
- Locks are not modelled. The store is a value passed in and returned, so a
  poisoned lock ("Session lock error") and concurrent interleavings are out.
- Timestamps in termination replies, logging, and the fixed texts of
  `initialize`, `ping`, `tools/list`, the root and health endpoints and the
  fallback handler are not modelled.
- Decoding bytes into JSON is not modelled. A body arrives as unreadable,
  empty, undecodable or decoded (`Rpc.Body`).
- The emoji and Markdown decoration of tool outputs and error texts is not
  modelled. Outputs are structured values (`PageView`, `FindReport`,
  `SearchReport`), and only the `L<n>: ` citation label is rendered as text.
- Text.Lower: only ASCII letters are lowercased. Rust's `to_lowercase`
  covers all of Unicode, and can change a string's length.
- Tools.Open: `num_lines` below -1 is outside the model (`SpanInRange`,
  `Rpc.InDomain`). The source turns a value -m into 2^64 - m with
  `as usize` and adds it to `loc`. For `loc < m` the sum does not
  overflow, is capped at the line count, and every remaining line is
  listed, as for -1. For `loc >= m` the addition overflows: a debug build
  panics, and a release build wraps to `loc - m`, so the slice at
  src/mcp_server.rs:638 is reversed and panics.
- Rpc.Dispatch: it is defined only on bodies in `InDomain`, for the same
  `num_lines` reason. So are `Rpc.HandleMcp`, `Rpc.ToolsCall` and
  `Tools.Execute`.
- LineSplit.Lines: it follows `str::lines` of current Rust, which keeps a
  '\r' on a final line that has no '\n' after it. Older Rust versions
  stripped that '\r' too.
- Lambda.AdaptRequest: the request body, headers and the parse of the final
  path into an `axum::http::Uri` are not modelled. Nor is the conversion of
  the router's response back to the serverless format.
- Lambda.AdaptRequest: it uses the corrected `RoutePath`. The code's
  behaviour is `RoutePathAsWritten`, which is kept and described under
  Findings.

## Findings

| source | as written | input that shows it | evidently intended | confidence | as-written member | corrected member |
|---|---|---|---|---|---|---|
| src/main.rs:97-98 | a full URI is cut after the first "/prod" found anywhere in it, host included | `https://prod.example.com/prod/mcp` routes to `.example.com/prod/mcp` | strip the stage prefix only at the start of the URI's path, giving `/mcp` | not executed | Lambda.HostStartingWithProdAsWritten | Lambda.RoutePathRecoversPath |
| src/main.rs:99-100 | a full URI without "/prod" keeps only its suffix from the last '/' | `https://api.example.com/mcp/sessions/abc` routes to `/abc` | route the URI's whole path, `/mcp/sessions/abc` | not executed | Lambda.NestedPathAsWritten | Lambda.RoutePathRecoversPath |
| src/main.rs:106-107 | a bare path is stripped of "/prod" by a string prefix test, so a first segment that only begins with "prod" is cut | `/products` routes to `ucts` | strip the stage only as a whole segment, so `/products` stays `/products` | not executed | Lambda.StageInsideSegmentAsWritten | Lambda.BarePathRecovered |
