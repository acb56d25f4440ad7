/** Pagination of `open`: which lines of a page are shown for a starting
    line `loc` and a line budget `num_lines`, and how each shown line is
    labelled with its absolute, 0-based line number for citation. */
module Paging {
  import opened Wrappers
  import opened Text
  import opened LineSplit
  import opened Decimal
  import opened ToolErrors

  function Min(a: nat, b: nat): nat {
    if a <= b then a else b
  }

  /** `usize::saturating_sub(1)`. */
  function SatPred(n: nat): nat {
    if n == 0 then 0 else n - 1
  }

  /** One page of a document: lines `loc .. end` of `total`. */
  datatype PageView = PageView(url: string, loc: nat, shown: seq<string>, end: nat, total: nat) {

    /** The listing stops before the last line of the document. */
    predicate Truncated() {
      end < total
    }

    /** The truncation notice: the last index shown and the last index of
        the document, each as `saturating_sub(1)` computes it. */
    function Notice(): Option<(nat, nat)> {
      if Truncated() then Some((SatPred(end), SatPred(total))) else None
    }
  }

  /** Where the listing stops: at the end for `num_lines == -1`, otherwise
      after `num_lines` lines or at the end, whichever comes first. */
  function EndLine(loc: nat, numLines: int, total: nat): nat
    requires numLines >= -1
  {
    if numLines == -1 then total else Min(loc + numLines, total)
  }

  /** The pagination step of `open` on already obtained content. */
  function Paginate(url: string, content: string, loc: nat, numLines: int): (r: Result<PageView, ToolError>)
    requires numLines >= -1
    ensures r.Err? <==> loc >= |Lines(content)|
    ensures r.Err? ==> r.error == InvalidLocation(loc, SatPred(|Lines(content)|))
    ensures r.Ok? ==> r.value.url == url && r.value.loc == loc && r.value.total == |Lines(content)|
    ensures r.Ok? ==> loc <= r.value.end <= r.value.total
    ensures r.Ok? ==> r.value.shown == Lines(content)[loc..r.value.end]
    ensures r.Ok? && numLines == -1 ==> !r.value.Truncated()
    ensures r.Ok? && numLines >= 0 ==> r.value.end == Min(loc + numLines, r.value.total)
  {
    var lines := Lines(content);
    var total := |lines|;
    if loc >= total then
      Err(InvalidLocation(loc, SatPred(total)))
    else
      var end := EndLine(loc, numLines, total);
      Ok(PageView(url, loc, lines[loc..end], end, total))
  }

  /** Opening with the defaults (`loc` 0, `num_lines` -1) lists the whole
      document, and fails only on a document without lines. */
  lemma WholeDocument(url: string, content: string)
    ensures Paginate(url, content, 0, -1).Ok? <==> Lines(content) != []
    ensures Paginate(url, content, 0, -1).Ok? ==>
              Paginate(url, content, 0, -1).value.shown == Lines(content)
  {
  }

  /** The truncation notice reports the true last index of the document and,
      once a line has been shown, the index right before where reading
      should continue. */
  lemma NoticeIndices(url: string, content: string, loc: nat, numLines: int)
    requires numLines >= -1
    requires Paginate(url, content, loc, numLines).Ok?
    ensures var v := Paginate(url, content, loc, numLines).value;
            v.Notice().Some? <==> v.end < |Lines(content)|
    ensures var v := Paginate(url, content, loc, numLines).value;
            v.Notice().Some? ==>
              v.Notice().value.1 + 1 == |Lines(content)| && (v.end > 0 ==> v.Notice().value.0 + 1 == v.end)
  {
  }

  /** Following the truncation notice loses and repeats nothing: opening
      again where a truncated listing stopped continues it, and the two
      listings together are exactly the lines from the first `loc` on. */
  lemma ContinueReading(url: string, content: string, loc: nat, numLines: int, nextLines: int)
    requires numLines >= -1 && nextLines >= -1
    requires Paginate(url, content, loc, numLines).Ok?
    requires Paginate(url, content, loc, numLines).value.Truncated()
    ensures var v := Paginate(url, content, loc, numLines).value;
            var w := Paginate(url, content, v.end, nextLines);
            && w.Ok?
            && v.shown + w.value.shown == Lines(content)[loc..w.value.end]
  {
    var lines := Lines(content);
    var v := Paginate(url, content, loc, numLines).value;
    var w := Paginate(url, content, v.end, nextLines).value;
    assert lines[loc..v.end] + lines[v.end..w.end] == lines[loc..w.end];
  }

  /** The label `L<n>: ` in front of a listed line. */
  function Label(n: nat): string {
    "L" + Dec(n) + ": "
  }

  function ListingLine(n: nat, text: string): string {
    Label(n) + text
  }

  /** The listed lines of a page, each labelled with its absolute number. */
  function Listing(v: PageView): seq<string> {
    seq(|v.shown|, i requires 0 <= i < |v.shown| => ListingLine(v.loc + i, v.shown[i]))
  }

  /** Reads a listed line back into its line number and text. */
  function ParseListingLine(line: string): Option<(nat, string)> {
    if line == [] || line[0] != 'L' then None
    else
      var rest := line[1..];
      var k := DigitRun(rest);
      if k > 0 && StartsWith(rest[k..], ": ") then Some((ParseDec(rest[..k]), rest[k + 2..]))
      else None
  }

  /** A label is read back as the number it was written with, whatever
      text follows it. */
  lemma ListingLineRoundTrip(n: nat, text: string)
    ensures ParseListingLine(ListingLine(n, text)) == Some((n, text))
  {
    var d := Dec(n);
    var line := ListingLine(n, text);
    assert line == "L" + (d + (": " + text));
    assert line[1..] == d + (": " + text);
    DigitRunStops(d, ": " + text);
    assert line[1..][..|d|] == d;
    assert line[1..][|d|..] == ": " + text;
    ParseDecOfDec(n);
  }

  /** Every line `open` lists cites its absolute position: the i-th listed
      line reads back as line `loc + i` of the document, with that line's
      text. */
  lemma ListingCitesAbsoluteLines(url: string, content: string, loc: nat, numLines: int)
    requires numLines >= -1
    requires Paginate(url, content, loc, numLines).Ok?
    ensures var v := Paginate(url, content, loc, numLines).value;
            forall i :: 0 <= i < |Listing(v)| ==>
              ParseListingLine(Listing(v)[i]) == Some((loc + i, Lines(content)[loc + i]))
  {
    var v := Paginate(url, content, loc, numLines).value;
    forall i | 0 <= i < |Listing(v)|
      ensures ParseListingLine(Listing(v)[i]) == Some((loc + i, Lines(content)[loc + i]))
    {
      ListingLineRoundTrip(loc + i, v.shown[i]);
    }
  }
}
