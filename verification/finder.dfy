/** The matching part of `find`: which lines match a pattern, the context
    shown around each match, and how many matches are rendered. */
module Finder {
  import opened Wrappers
  import opened Text
  import opened LineSplit

  /** Only this many matches are rendered in full. */
  const MAX_RENDERED: nat := 10

  /** Case-insensitive substring test on one line. */
  predicate LineMatches(line: string, pattern: string) {
    Contains(Lower(line), Lower(pattern))
  }

  /** Indices of the matching lines at or after `k`, in ascending order. */
  function MatchesFrom(lines: seq<string>, pattern: string, k: nat): (r: seq<nat>)
    requires k <= |lines|
    ensures forall j :: 0 <= j < |r| ==> k <= r[j] < |lines| && LineMatches(lines[r[j]], pattern)
    ensures forall j, j' :: 0 <= j < j' < |r| ==> r[j] < r[j']
    ensures forall i :: k <= i < |lines| && LineMatches(lines[i], pattern) ==> i in r
    decreases |lines| - k
  {
    if k == |lines| then []
    else if LineMatches(lines[k], pattern) then [k] + MatchesFrom(lines, pattern, k + 1)
    else MatchesFrom(lines, pattern, k + 1)
  }

  /** The matching line indices, in the order `execute_find`'s loop meets them. */
  function Matches(lines: seq<string>, pattern: string): (r: seq<nat>)
    ensures forall i :: i in r <==> 0 <= i < |lines| && LineMatches(lines[i], pattern)
    ensures forall j, j' :: 0 <= j < j' < |r| ==> r[j] < r[j']
  {
    MatchesFrom(lines, pattern, 0)
  }

  /** Matching does not depend on how the pattern is capitalised. */
  lemma MatchesIgnorePatternCase(lines: seq<string>, p: string, q: string)
    requires Lower(p) == Lower(q)
    ensures Matches(lines, p) == Matches(lines, q)
  {
    var a := Matches(lines, p);
    var b := Matches(lines, q);
    SortedByMembership(a, b);
  }

  /** Two strictly ascending sequences with the same members are equal. */
  lemma {:induction false} SortedByMembership(a: seq<nat>, b: seq<nat>)
    requires forall j, j' :: 0 <= j < j' < |a| ==> a[j] < a[j']
    requires forall j, j' :: 0 <= j < j' < |b| ==> b[j] < b[j']
    requires forall x :: x in a <==> x in b
    ensures a == b
    decreases |a| + |b|
  {
    if a != [] { assert a[0] in b; }
    if b != [] { assert b[0] in a; }
    if a != [] && b != [] {
      assert a[0] == b[0] by {
        assert a[0] in b && b[0] in a;
      }
      assert a == [a[0]] + a[1..] && b == [b[0]] + b[1..];
      forall x
        ensures x in a[1..] <==> x in b[1..]
      {
        if x in a[1..] {
          var k :| 0 <= k < |a[1..]| && a[1..][k] == x;
          assert a[k + 1] == x;
          assert x in b && x != b[0];
        }
        if x in b[1..] {
          var k :| 0 <= k < |b[1..]| && b[1..][k] == x;
          assert b[k + 1] == x;
          assert x in a && x != a[0];
        }
      }
      SortedByMembership(a[1..], b[1..]);
    }
  }

  /** One line of a match's context; `marked` is the `>>> <<<` highlight. */
  datatype ContextLine = ContextLine(index: nat, text: string, marked: bool)

  /** One rendered match: its line and the context lines around it. */
  datatype MatchView = MatchView(line: nat, context: seq<ContextLine>)

  /** `line_num.saturating_sub(2)`. */
  function WindowStart(i: nat): nat {
    if i >= 2 then i - 2 else 0
  }

  /** `(line_num + 3).min(lines.len())`. */
  function WindowEnd(i: nat, n: nat): nat {
    if i + 3 <= n then i + 3 else n
  }

  function Context(lines: seq<string>, i: nat): seq<ContextLine>
    requires i < |lines|
  {
    var start := WindowStart(i);
    seq(WindowEnd(i, |lines|) - start,
        k requires 0 <= k < WindowEnd(i, |lines|) - start =>
          ContextLine(start + k, lines[start + k], start + k == i))
  }

  /** Line `j` appears in the context lines `ctx`. */
  predicate Shows(ctx: seq<ContextLine>, j: nat) {
    exists k :: 0 <= k < |ctx| && ctx[k].index == j
  }

  /** A match's context lists, in order and without gaps, exactly the lines
      within two lines of the match, each with its own text; the match is
      the one marked line. */
  lemma ContextWindow(lines: seq<string>, i: nat)
    requires i < |lines|
    ensures var ctx := Context(lines, i);
            forall j: nat :: Shows(ctx, j) <==> j < |lines| && i <= j + 2 && j <= i + 2
    ensures var ctx := Context(lines, i);
            forall k :: 0 <= k < |ctx| ==> ctx[k].index < |lines| && ctx[k].text == lines[ctx[k].index]
    ensures var ctx := Context(lines, i);
            forall k :: 0 <= k < |ctx| ==> (ctx[k].marked <==> ctx[k].index == i)
    ensures var ctx := Context(lines, i);
            forall k :: 0 < k < |ctx| ==> ctx[k].index == ctx[k - 1].index + 1
  {
    var ctx := Context(lines, i);
    var start := WindowStart(i);
    forall j: nat | j < |lines| && i <= j + 2 && j <= i + 2
      ensures Shows(ctx, j)
    {
      assert ctx[j - start].index == j;
    }
  }

  /** What `find` reports on the lines it searched. */
  datatype FindReport =
    | NoMatches(pattern: string)
    | Found(pattern: string, url: string, count: nat, shown: seq<MatchView>, suppressed: nat)

  function MatchViewAt(lines: seq<string>, i: nat): MatchView
    requires i < |lines|
  {
    MatchView(i, Context(lines, i))
  }

  /** The matching and rendering step of `find` on already selected content. */
  function Report(content: string, url: string, pattern: string): (r: FindReport)
    ensures r.NoMatches? <==> Matches(Lines(content), pattern) == []
    ensures r.NoMatches? ==> r.pattern == pattern
    ensures r.Found? ==>
              var m := Matches(Lines(content), pattern);
              && r.pattern == pattern && r.url == url
              && r.count == |m|
              && |r.shown| == (if |m| <= MAX_RENDERED then |m| else MAX_RENDERED)
              && (forall k :: 0 <= k < |r.shown| ==> r.shown[k].line == m[k])
              && (forall k :: 0 <= k < |r.shown| ==> r.shown[k] == MatchView(m[k], Context(Lines(content), m[k])))
              && r.suppressed == (if |m| > MAX_RENDERED then |m| - MAX_RENDERED else 0)
  {
    var lines := Lines(content);
    var m := Matches(lines, pattern);
    if m == [] then NoMatches(pattern)
    else
      var n := if |m| <= MAX_RENDERED then |m| else MAX_RENDERED;
      var shown := seq(n, k requires 0 <= k < n => MatchViewAt(lines, m[k]));
      Found(pattern, url, |m|, shown, if |m| > MAX_RENDERED then |m| - MAX_RENDERED else 0)
  }

  /** Rendered and suppressed matches together account for every match. */
  lemma ShownPlusSuppressed(content: string, url: string, pattern: string)
    requires Report(content, url, pattern).Found?
    ensures var r := Report(content, url, pattern);
            |r.shown| + r.suppressed == r.count && |r.shown| <= MAX_RENDERED
  {
  }
}
