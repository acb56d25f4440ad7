/** Per-session browsing state and the process-wide session store. The
    store is an explicit map value here; the lock around it is not modelled. */
module Sessions {
  import opened Wrappers

  /** What one caller has browsed: the page opened last and every page
      fetched so far, keyed by the exact URL string the caller supplied. */
  datatype Session = Session(currentUrl: Option<string>, currentContent: Option<string>, pages: map<string, string>)

  /** `BrowserSession::default()`. */
  const EMPTY_SESSION: Session := Session(None, None, map[])

  type Store = map<string, Session>

  /** The entry `open` writes into: the existing session, or a default one
      (`entry(..).or_default()`). */
  function SessionOrDefault(store: Store, id: string): Session {
    if id in store then store[id] else EMPTY_SESSION
  }

  /** The session update of `open`: the page becomes current and is cached
      under its URL. Every other session and every other cached page is
      left as it was. */
  function Record(store: Store, id: string, url: string, content: string): (r: Store)
    ensures r.Keys == store.Keys + {id}
    ensures r[id].currentUrl == Some(url) && r[id].currentContent == Some(content)
    ensures r[id].pages.Keys == SessionOrDefault(store, id).pages.Keys + {url}
    ensures r[id].pages[url] == content
    ensures forall u :: u in SessionOrDefault(store, id).pages && u != url ==>
              r[id].pages[u] == SessionOrDefault(store, id).pages[u]
    ensures forall other :: other in store && other != id ==> r[other] == store[other]
  {
    var s := SessionOrDefault(store, id);
    store[id := Session(Some(url), Some(content), s.pages[url := content])]
  }

  /** Recording the page a session already shows, with the content it
      already caches, changes nothing. */
  lemma RecordIdempotent(store: Store, id: string, url: string, content: string)
    ensures Record(Record(store, id, url, content), id, url, content) == Record(store, id, url, content)
  {
    var once := Record(store, id, url, content);
    var s := once[id];
    assert s.pages[url := content] == s.pages;
    assert once[id := Session(Some(url), Some(content), s.pages)] == once;
  }

  /** `sessions.remove(id)`: forgets one session; an unknown id is no error. */
  function Remove(store: Store, id: string): (r: Store)
    ensures r.Keys == store.Keys - {id}
    ensures forall other :: other in r ==> r[other] == store[other]
  {
    store - {id}
  }

  /** Removing twice is the same as removing once. */
  lemma RemoveIdempotent(store: Store, id: string)
    ensures Remove(Remove(store, id), id) == Remove(store, id)
  {
  }

  /** A session as `open` leaves it: current URL and content set together,
      and the current content is the cached copy of the current URL. */
  predicate Consistent(s: Session) {
    && s.currentUrl.Some?
    && s.currentContent.Some?
    && s.currentUrl.value in s.pages
    && s.pages[s.currentUrl.value] == s.currentContent.value
  }

  /** Every stored session is consistent. Sessions are only ever created by
      `open`, so the empty default is never stored. */
  predicate Invariant(store: Store) {
    forall id :: id in store ==> Consistent(store[id])
  }

  lemma RecordKeepsInvariant(store: Store, id: string, url: string, content: string)
    requires Invariant(store)
    ensures Invariant(Record(store, id, url, content))
  {
  }

  lemma RemoveKeepsInvariant(store: Store, id: string)
    requires Invariant(store)
    ensures Invariant(Remove(store, id))
  {
  }
}
