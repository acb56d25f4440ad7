/** The three tools — search, open, find — run against the session store.
    The page fetcher (network request plus HTML-to-text conversion) and the
    search provider (network request plus result scraping) are external
    and enter as function-valued parameters. */
module Tools {
  import opened Wrappers
  import opened Json
  import opened Text
  import opened LineSplit
  import opened Sessions
  import opened Registry
  import opened ToolErrors
  import opened Paging
  import opened Finder

  /** One result from the search provider. */
  datatype SearchResult = SearchResult(title: string, url: string, snippet: string)

  /** The external collaborators: fetch a URL to plain text, and run a web
      query for at most the given number of results. */
  datatype Env = Env(
    fetch: string -> Result<string, string>,
    search: (string, nat) -> Result<seq<SearchResult>, string>)

  // ----- search -----

  const DEFAULT_TOPN: nat := 10
  const MAX_TOPN: nat := 50

  /** One numbered entry of the search listing; the snippet line is left
      out when the snippet is empty. */
  datatype SearchEntry = SearchEntry(rank: nat, title: string, snippet: Option<string>, url: string)

  datatype SearchReport = NoResults(query: string) | Results(query: string, entries: seq<SearchEntry>)

  /** The number of results asked for: the `topn` argument when it reads as
      a u64, otherwise 10, and then clamped into [1, 50]. */
  function TopN(args: Json): (n: nat)
    ensures 1 <= n <= MAX_TOPN
    ensures AsU64(Get(args, "topn")).None? ==> n == DEFAULT_TOPN
    ensures AsU64(Get(args, "topn")).Some? ==>
              var v := AsU64(Get(args, "topn")).value;
              (v < 1 ==> n == 1) && (v > MAX_TOPN ==> n == MAX_TOPN) && (1 <= v <= MAX_TOPN ==> n == v)
  {
    var v := AsU64(Get(args, "topn")).GetOr(DEFAULT_TOPN);
    var capped := if v < MAX_TOPN then v else MAX_TOPN;
    if capped > 1 then capped else 1
  }

  function Entries(results: seq<SearchResult>): (es: seq<SearchEntry>)
    ensures |es| == |results|
  {
    seq(|results|, k requires 0 <= k < |results| =>
      var r := results[k];
      SearchEntry(k + 1, r.title, if r.snippet == [] then None else Some(r.snippet), r.url))
  }

  /** Reads a listing back into the results it was made from. */
  function ResultsOf(es: seq<SearchEntry>): seq<SearchResult> {
    seq(|es|, k requires 0 <= k < |es| => SearchResult(es[k].title, es[k].url, es[k].snippet.GetOr([])))
  }

  /** The listing numbers the results 1..n in the provider's order, omits
      exactly the empty snippets, and loses nothing: the results can be read
      back from it. */
  lemma EntriesFaithful(results: seq<SearchResult>)
    ensures var es := Entries(results);
            forall k :: 0 <= k < |es| ==> es[k].rank == k + 1 && (es[k].snippet.None? <==> results[k].snippet == [])
    ensures ResultsOf(Entries(results)) == results
  {
  }

  /** `search`. The query is passed to the provider unchanged (not trimmed). */
  function Search(args: Json, provider: (string, nat) -> Result<seq<SearchResult>, string>): (r: Result<SearchReport, ToolError>)
    ensures AsStr(Get(args, "query")).None? ==> r == Err(MissingParameter("query"))
    ensures AsStr(Get(args, "query")).Some? && IsBlank(AsStr(Get(args, "query")).value) ==> r == Err(EmptyQuery)
    ensures r.Ok? ==>
              var q := AsStr(Get(args, "query")).value;
              && !IsBlank(q)
              && provider(q, TopN(args)).Ok?
              && (r.value == if provider(q, TopN(args)).value == [] then NoResults(q)
                             else Results(q, Entries(provider(q, TopN(args)).value)))
    ensures r.Err? && r.error.SearchFailed? ==>
              provider(AsStr(Get(args, "query")).value, TopN(args)) == Err(r.error.reason)
    ensures AsStr(Get(args, "query")).Some? && !IsBlank(AsStr(Get(args, "query")).value) ==>
              var answer := provider(AsStr(Get(args, "query")).value, TopN(args));
              && (r.Ok? <==> answer.Ok?)
              && (r.Err? ==> r.error == SearchFailed(answer.error))
  {
    match AsStr(Get(args, "query"))
    case None => Err(MissingParameter("query"))
    case Some(query) =>
      if IsBlank(query) then Err(EmptyQuery)
      else
        match provider(query, TopN(args))
        case Err(msg) => Err(SearchFailed(msg))
        case Ok(results) =>
          if results == [] then Ok(NoResults(query)) else Ok(Results(query, Entries(results)))
  }

  // ----- open -----

  /** The `loc` argument: a u64, default 0. */
  function Loc(args: Json): nat {
    AsU64(Get(args, "loc")).GetOr(0)
  }

  /** The `num_lines` argument: an i64, default -1 ("to the end"). */
  function NumLines(args: Json): int {
    AsI64(Get(args, "num_lines")).GetOr(-1)
  }

  /** `num_lines` is -1 or non-negative. `execute_open` converts
      other negative values -m with `as usize`, giving 2^64 - m, and adds that
      to `loc`. When `loc < m` the sum stays below 2^64 and is capped at
      the line count, so every remaining line is listed, as for -1. When
      `loc >= m` the addition overflows: a debug build panics, and a
      release build wraps to `loc - m` and panics on the reversed slice. */
  predicate SpanInRange(args: Json) {
    NumLines(args) >= -1
  }

  /** The cached copy of `url` in session `id`, if there is one. */
  function Cached(store: Store, id: string, url: string): Option<string> {
    if id in store && url in store[id].pages then Some(store[id].pages[url]) else None
  }

  /** The content `open` works on: the cached copy, else the fetcher's.
      Only a fetch can fail, and its message is passed on. */
  function Obtain(store: Store, id: string, url: string, fetch: string -> Result<string, string>): (r: Result<string, ToolError>)
    ensures Cached(store, id, url).Some? ==> r == Ok(Cached(store, id, url).value)
    ensures Cached(store, id, url).None? ==>
              && (r.Ok? <==> fetch(url).Ok?)
              && (r.Ok? ==> r.value == fetch(url).value)
              && (r.Err? ==> r.error == FetchFailed(fetch(url).error))
  {
    match Cached(store, id, url)
    case Some(content) => Ok(content)
    case None =>
      match fetch(url)
      case Ok(content) => Ok(content)
      case Err(msg) => Err(FetchFailed(msg))
  }

  /** `open`: returns the page listing (or the failure) and the new store. */
  function Open(store: Store, id: string, args: Json, fetch: string -> Result<string, string>): (out: (Result<PageView, ToolError>, Store))
    requires SpanInRange(args)
    ensures AsStr(Get(args, "url")).None? ==> out == (Err(MissingParameter("url")), store)
    ensures AsStr(Get(args, "url")).Some? && IsBlank(AsStr(Get(args, "url")).value) ==> out == (Err(EmptyUrl), store)
    ensures out.0.Err? && out.0.error.FetchFailed? ==> out.1 == store
    ensures out.1 != store ==>
              && AsStr(Get(args, "url")).Some?
              && Obtain(store, id, AsStr(Get(args, "url")).value, fetch).Ok?
              && out.1 == Record(store, id, AsStr(Get(args, "url")).value, Obtain(store, id, AsStr(Get(args, "url")).value, fetch).value)
    ensures out.0.Ok? ==>
              var url := AsStr(Get(args, "url")).value;
              && !IsBlank(url)
              && Obtain(store, id, url, fetch).Ok?
              && out.0.value.url == url
              && out.0.value.loc == Loc(args)
              && out.1 == Record(store, id, url, Obtain(store, id, url, fetch).value)
    ensures AsStr(Get(args, "url")).Some? && !IsBlank(AsStr(Get(args, "url")).value) ==>
              var url := AsStr(Get(args, "url")).value;
              match Obtain(store, id, url, fetch)
              case Err(e) => out == (Err(e), store)
              case Ok(content) => out == (Paginate(url, content, Loc(args), NumLines(args)), Record(store, id, url, content))
  {
    match AsStr(Get(args, "url"))
    case None => (Err(MissingParameter("url")), store)
    case Some(url) =>
      if IsBlank(url) then (Err(EmptyUrl), store)
      else
        match Obtain(store, id, url, fetch)
        case Err(e) => (Err(e), store)
        case Ok(content) =>
          (Paginate(url, content, Loc(args), NumLines(args)), Record(store, id, url, content))
  }

  /** A cached page is served without the fetcher: whatever the fetcher
      would return, `open` gives the same answer and the same store, and
      lists the cached text. */
  lemma OpenCachedIgnoresFetcher(store: Store, id: string, args: Json, f1: string -> Result<string, string>, f2: string -> Result<string, string>)
    requires SpanInRange(args)
    requires AsStr(Get(args, "url")).Some?
    requires Cached(store, id, AsStr(Get(args, "url")).value).Some?
    ensures Open(store, id, args, f1) == Open(store, id, args, f2)
    ensures var url := AsStr(Get(args, "url")).value;
            !IsBlank(url) ==>
              Open(store, id, args, f1).0 == Paginate(url, store[id].pages[url], Loc(args), NumLines(args))
  {
  }

  /** The session is updated before `loc` is checked: once the content is
      obtained the page is current and cached even when the call then fails
      on its location, and no other session or cached page changes. */
  lemma OpenRecordsBeforeCheckingLoc(store: Store, id: string, args: Json, fetch: string -> Result<string, string>)
    requires SpanInRange(args)
    requires AsStr(Get(args, "url")).Some? && !IsBlank(AsStr(Get(args, "url")).value)
    ensures var url := AsStr(Get(args, "url")).value;
            Obtain(store, id, url, fetch).Ok? ==>
            var content := Obtain(store, id, url, fetch).value;
            var out := Open(store, id, args, fetch);
            && out.1[id].currentUrl == Some(url)
            && out.1[id].currentContent == Some(content)
            && out.1[id].pages[url] == content
            && (forall other :: other in store && other != id ==> out.1[other] == store[other])
            && (out.0.Err? <==> Loc(args) >= |Lines(content)|)
  {
  }

  /** Opening a page a second time serves the copy cached by the first
      open, whatever the fetcher now returns, and changes nothing. */
  lemma ReopenServesCache(store: Store, id: string, args: Json, again: Json, f1: string -> Result<string, string>, f2: string -> Result<string, string>)
    requires SpanInRange(args) && SpanInRange(again)
    requires AsStr(Get(args, "url")).Some? && !IsBlank(AsStr(Get(args, "url")).value)
    requires AsStr(Get(again, "url")) == AsStr(Get(args, "url"))
    ensures var url := AsStr(Get(args, "url")).value;
            Obtain(store, id, url, f1).Ok? ==>
            var first := Open(store, id, args, f1);
            var second := Open(first.1, id, again, f2);
            && Cached(first.1, id, url) == Some(Obtain(store, id, url, f1).value)
            && second.1 == first.1
            && second.0 == Paginate(url, Obtain(store, id, url, f1).value, Loc(again), NumLines(again))
  {
    var url := AsStr(Get(args, "url")).value;
    if Obtain(store, id, url, f1).Ok? {
      var content := Obtain(store, id, url, f1).value;
      var first := Open(store, id, args, f1);
      assert first.1 == Record(store, id, url, content);
      assert Obtain(first.1, id, url, f2) == Ok(content);
      RecordIdempotent(store, id, url, content);
    }
  }

  // ----- find -----

  /** The page `find` searches: the named cached page, or the current one. */
  function FindSource(store: Store, id: string, args: Json): (r: Result<(string, string), ToolError>)
    ensures r.Ok? ==> id in store
    ensures AsStr(Get(args, "url")).Some? ==>
              var url := AsStr(Get(args, "url")).value;
              && (id !in store ==> r == Err(NoActiveSession))
              && (id in store && url !in store[id].pages ==> r == Err(PageNotInSession(url)))
              && (id in store && url in store[id].pages ==> r == Ok((store[id].pages[url], url)))
    ensures AsStr(Get(args, "url")).None? ==>
              && (id !in store ==> r == Err(NoActiveSession))
              && (id in store ==>
                    var s := store[id];
                    if s.currentContent.Some? && s.currentUrl.Some?
                    then r == Ok((s.currentContent.value, s.currentUrl.value))
                    else r == Err(NoPageOpen))
  {
    match AsStr(Get(args, "url"))
    case Some(url) =>
      if id !in store then Err(NoActiveSession)
      else if url in store[id].pages then Ok((store[id].pages[url], url))
      else Err(PageNotInSession(url))
    case None =>
      if id !in store then Err(NoActiveSession)
      else
        var s := store[id];
        if s.currentContent.Some? && s.currentUrl.Some? then Ok((s.currentContent.value, s.currentUrl.value))
        else Err(NoPageOpen)
  }

  /** `find`. It only reads the store. */
  function Find(store: Store, id: string, args: Json): (r: Result<FindReport, ToolError>)
    ensures AsStr(Get(args, "pattern")).None? ==> r == Err(MissingParameter("pattern"))
    ensures AsStr(Get(args, "pattern")).Some? && IsBlank(AsStr(Get(args, "pattern")).value) ==> r == Err(EmptyPattern)
    ensures r.Ok? ==>
              var pattern := AsStr(Get(args, "pattern")).value;
              && !IsBlank(pattern)
              && FindSource(store, id, args).Ok?
              && r.value == Report(FindSource(store, id, args).value.0, FindSource(store, id, args).value.1, pattern)
    ensures AsStr(Get(args, "pattern")).Some? && !IsBlank(AsStr(Get(args, "pattern")).value) ==>
              && (FindSource(store, id, args).Err? ==> r == Err(FindSource(store, id, args).error))
              && (FindSource(store, id, args).Ok? ==> r.Ok?)
  {
    match AsStr(Get(args, "pattern"))
    case None => Err(MissingParameter("pattern"))
    case Some(pattern) =>
      if IsBlank(pattern) then Err(EmptyPattern)
      else
        match FindSource(store, id, args)
        case Err(e) => Err(e)
        case Ok((content, url)) => Ok(Report(content, url, pattern))
  }

  /** In a store where every session was created by `open`, `find` without
      a URL never reports "no page open": either the session is unknown or
      its current page is there. */
  lemma NoPageOpenUnreachable(store: Store, id: string, args: Json)
    requires Invariant(store)
    ensures FindSource(store, id, args) != Err(NoPageOpen)
  {
    if id in store {
      assert Consistent(store[id]);
    }
  }

  /** After `open` has obtained a page, `find` without a URL in the same
      session searches exactly that page, even when `open` itself failed
      on its location. */
  lemma OpenThenFind(store: Store, id: string, args: Json, fetch: string -> Result<string, string>, findArgs: Json)
    requires SpanInRange(args)
    requires AsStr(Get(args, "url")).Some? && !IsBlank(AsStr(Get(args, "url")).value)
    requires AsStr(Get(findArgs, "url")).None?
    requires AsStr(Get(findArgs, "pattern")).Some? && !IsBlank(AsStr(Get(findArgs, "pattern")).value)
    ensures var url := AsStr(Get(args, "url")).value;
            Obtain(store, id, url, fetch).Ok? ==>
            Find(Open(store, id, args, fetch).1, id, findArgs)
              == Ok(Report(Obtain(store, id, url, fetch).value, url, AsStr(Get(findArgs, "pattern")).value))
  {
  }

  // ----- dispatch to a tool -----

  datatype ToolOutput = SearchOutput(search: SearchReport) | PageOutput(page: PageView) | FindOutput(find: FindReport)

  /** `execute_tool`: runs one registered tool and returns its output (or
      failure) with the store as the tool leaves it. */
  function Execute(tool: ToolName, args: Json, id: string, store: Store, env: Env): (out: (Result<ToolOutput, ToolError>, Store))
    requires tool == OpenTool ==> SpanInRange(args)
    ensures tool != OpenTool ==> out.1 == store
    ensures Invariant(store) ==> Invariant(out.1)
    ensures tool == SearchTool ==>
              var r := Search(args, env.search);
              && (out.0.Ok? <==> r.Ok?)
              && (out.0.Ok? ==> out.0.value == SearchOutput(r.value))
              && (out.0.Err? ==> out.0.error == r.error)
    ensures tool == OpenTool ==>
              var r := Open(store, id, args, env.fetch);
              && out.1 == r.1
              && (out.0.Ok? <==> r.0.Ok?)
              && (out.0.Ok? ==> out.0.value == PageOutput(r.0.value))
              && (out.0.Err? ==> out.0.error == r.0.error)
    ensures tool == FindTool ==>
              var r := Find(store, id, args);
              && (out.0.Ok? <==> r.Ok?)
              && (out.0.Ok? ==> out.0.value == FindOutput(r.value))
              && (out.0.Err? ==> out.0.error == r.error)
  {
    match tool
    case SearchTool =>
      (match Search(args, env.search)
       case Ok(r) => Ok(SearchOutput(r))
       case Err(e) => Err(e), store)
    case OpenTool =>
      var (r, store') := Open(store, id, args, env.fetch);
      assert Invariant(store) ==> Invariant(store') by {
        if Invariant(store) && store' != store {
          var url := AsStr(Get(args, "url")).value;
          RecordKeepsInvariant(store, id, url, Obtain(store, id, url, env.fetch).value);
        }
      }
      (match r
       case Ok(v) => Ok(PageOutput(v))
       case Err(e) => Err(e), store')
    case FindTool =>
      (match Find(store, id, args)
       case Ok(r) => Ok(FindOutput(r))
       case Err(e) => Err(e), store)
  }

  /** The schema and the executor agree on required arguments: every
      property the registry marks required makes its tool fail with a
      missing-parameter error when it is absent or not a string. */
  lemma RequiredArgumentsEnforced(tool: ToolName, args: Json, id: string, store: Store, env: Env, p: Param)
    requires tool == OpenTool ==> SpanInRange(args)
    requires p in Definition(tool).params && p.required
    requires AsStr(Get(args, p.name)).None?
    ensures Execute(tool, args, id, store, env).0 == Err(MissingParameter(p.name))
  {
  }

  /** The schema and the executor agree on defaults: an absent `topn`,
      `loc` or `num_lines` takes the default the registry publishes. */
  lemma DefaultsAgree(args: Json)
    ensures Get(args, "topn").None? ==> JInt(TopN(args)) == SEARCH_DEFINITION.params[1].default.value
    ensures Get(args, "loc").None? ==> JInt(Loc(args)) == OPEN_DEFINITION.params[1].default.value
    ensures Get(args, "num_lines").None? ==> JInt(NumLines(args)) == OPEN_DEFINITION.params[2].default.value
  {
  }
}
