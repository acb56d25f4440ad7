/** The parts of an HTTP request's header map the server reads. */
module Http {
  import opened Wrappers
  import opened Text

  newtype byte = x: int | 0 <= x < 256

  /** Header fields in arrival order. Names match without regard to ASCII
      case, as `HeaderMap` normalises them. */
  type Headers = seq<(string, seq<byte>)>

  /** Entry `k` is the first one stored under `name`. */
  predicate FirstUnder(h: Headers, name: string, k: int) {
    && 0 <= k < |h|
    && Lower(h[k].0) == Lower(name)
    && forall j :: 0 <= j < k ==> Lower(h[j].0) != Lower(name)
  }

  /** `HeaderMap::get`: the first value stored under `name`. */
  function HeaderGet(h: Headers, name: string): (r: Option<seq<byte>>)
    ensures r.Some? ==> exists k :: FirstUnder(h, name, k) && h[k].1 == r.value
    ensures r.None? ==> forall k :: 0 <= k < |h| ==> Lower(h[k].0) != Lower(name)
  {
    if h == [] then None
    else if Lower(h[0].0) == Lower(name) then Some(h[0].1)
    else
      var r := HeaderGet(h[1..], name);
      assert r.Some? ==> exists k :: FirstUnder(h, name, k) && h[k].1 == r.value by {
        if r.Some? {
          var k :| FirstUnder(h[1..], name, k) && h[1..][k].1 == r.value;
          assert h[k + 1] == h[1..][k];
          assert forall j :: 1 <= j <= k ==> h[j] == h[1..][j - 1];
          assert FirstUnder(h, name, k + 1);
        }
      }
      r
  }

  /** Looking a header up depends only on the lowercased name. */
  lemma {:induction false} HeaderGetIgnoresCase(h: Headers, a: string, b: string)
    requires Lower(a) == Lower(b)
    ensures HeaderGet(h, a) == HeaderGet(h, b)
  {
    if h != [] {
      HeaderGetIgnoresCase(h[1..], a, b);
    }
  }

  /** A byte `HeaderValue::to_str` accepts: visible ASCII, space or tab. */
  predicate IsVisible(b: byte) {
    (32 <= b < 127) || b == 9
  }

  /** `HeaderValue::to_str`: the value as text when every byte is visible
      ASCII, and nothing otherwise. */
  function ToStr(v: seq<byte>): (r: Option<string>)
    ensures r.Some? <==> forall i :: 0 <= i < |v| ==> IsVisible(v[i])
    ensures r.Some? ==> |r.value| == |v| && forall i :: 0 <= i < |v| ==> r.value[i] as int == v[i] as int
  {
    if forall i :: 0 <= i < |v| ==> IsVisible(v[i]) then
      Some(seq(|v|, i requires 0 <= i < |v| => v[i] as int as char))
    else None
  }

  /** The session a JSON-RPC request belongs to: the `Mcp-Session-Id`
      header when it is readable text, otherwise "default". */
  function SessionIdOf(h: Headers): (id: string)
    ensures HeaderGet(h, "mcp-session-id").None? ==> id == "default"
    ensures HeaderGet(h, "mcp-session-id").Some? ==>
              id == ToStr(HeaderGet(h, "mcp-session-id").value).GetOr("default")
  {
    assert Lower("Mcp-Session-Id") == Lower("mcp-session-id");
    HeaderGetIgnoresCase(h, "Mcp-Session-Id", "mcp-session-id");
    var v := HeaderGet(h, "Mcp-Session-Id");
    var w := if v.Some? then v else HeaderGet(h, "mcp-session-id");
    match w
    case None => "default"
    case Some(bytes) => ToStr(bytes).GetOr("default")
  }
}
