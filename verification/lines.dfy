/** Rust's `str::lines`, which both `open` and `find` use to turn fetched
    text into numbered lines: split after every '\n', drop that '\n' and
    then one '\r' before it, and yield nothing for the empty remainder after
    a final '\n'. A last line with no '\n' after it keeps a trailing '\r'. */
module LineSplit {
  import opened Wrappers
  import opened Text

  predicate EndsWithCR(l: string) {
    |l| > 0 && l[|l| - 1] == '\r'
  }

  function StripCR(l: string): string {
    if EndsWithCR(l) then l[..|l| - 1] else l
  }

  function Lines(s: string): (ls: seq<string>)
    ensures forall k :: 0 <= k < |ls| ==> '\n' !in ls[k]
    ensures |ls| <= |s|
    decreases |s|
  {
    if s == [] then []
    else
      match IndexOf(s, '\n')
      case None => [s]
      case Some(k) =>
        var l := s[..k];
        assert '\n' !in StripCR(l) by {
          if EndsWithCR(l) { assert StripCR(l) == l[..|l| - 1]; }
        }
        [StripCR(l)] + Lines(s[k + 1..])
  }

  /** Each line followed by a '\n'. */
  function Terminated(ls: seq<string>): string {
    if ls == [] then [] else ls[0] + "\n" + Terminated(ls[1..])
  }

  function CountChar(s: string, c: char): nat {
    if s == [] then 0 else (if s[0] == c then 1 else 0) + CountChar(s[1..], c)
  }

  lemma {:induction false} CountCharAppend(a: string, b: string, c: char)
    ensures CountChar(a + b, c) == CountChar(a, c) + CountChar(b, c)
    decreases |a|
  {
    if a == [] {
      assert a + b == b;
    } else {
      assert (a + b)[1..] == a[1..] + b;
      CountCharAppend(a[1..], b, c);
    }
  }

  lemma {:induction false} CountCharAbsent(s: string, c: char)
    requires c !in s
    ensures CountChar(s, c) == 0
    decreases |s|
  {
    if s != [] {
      assert s == [s[0]] + s[1..];
      CountCharAbsent(s[1..], c);
    }
  }

  /** Lines terminated by '\n' split back into exactly those lines, as long
      as none holds a '\n' or ends in a '\r' that the split would drop. */
  lemma {:induction false} LinesOfTerminated(ls: seq<string>)
    requires forall k :: 0 <= k < |ls| ==> '\n' !in ls[k] && !EndsWithCR(ls[k])
    ensures Lines(Terminated(ls)) == ls
    decreases |ls|
  {
    if ls != [] {
      var l := ls[0];
      var rest := Terminated(ls[1..]);
      var s := Terminated(ls);
      assert s == l + "\n" + rest;
      assert s[|l|] == '\n';
      assert s[..|l|] == l;
      var r := IndexOf(s, '\n');
      assert s[|l|] in s;
      assert r == Some(|l|);
      assert s[|l| + 1..] == rest;
      LinesOfTerminated(ls[1..]);
    }
  }

  /** Each line followed by "\r\n", as Windows-style text ends its lines. */
  function CrlfTerminated(ls: seq<string>): string {
    if ls == [] then [] else ls[0] + "\r\n" + CrlfTerminated(ls[1..])
  }

  /** Lines terminated by "\r\n" split back into exactly those lines, as
      long as none holds a '\n'. Only the one '\r' before each '\n' is
      dropped, so a line may itself end in '\r'. */
  lemma {:induction false} LinesOfCrlfTerminated(ls: seq<string>)
    requires forall k :: 0 <= k < |ls| ==> '\n' !in ls[k]
    ensures Lines(CrlfTerminated(ls)) == ls
    decreases |ls|
  {
    if ls != [] {
      var l := ls[0];
      var rest := CrlfTerminated(ls[1..]);
      var s := CrlfTerminated(ls);
      assert s == (l + "\r") + "\n" + rest;
      var n := |l| + 1;
      assert s[n] == '\n';
      assert s[..n] == l + "\r";
      assert s[n] in s;
      assert IndexOf(s, '\n') == Some(n);
      assert StripCR(s[..n]) == l;
      assert s[n + 1..] == rest;
      LinesOfCrlfTerminated(ls[1..]);
    }
  }

  /** Appending a '\n' does not move the first '\n' of a text that has one. */
  lemma FirstNewlineKept(s: string, k: nat)
    requires IndexOf(s, '\n') == Some(k)
    ensures IndexOf(s + "\n", '\n') == Some(k)
    ensures (s + "\n")[..k] == s[..k] && (s + "\n")[k + 1..] == s[k + 1..] + "\n"
  {
    var t := s + "\n";
    assert t[k] == '\n';
    assert t[..k] == s[..k];
  }

  /** In a text without '\n', the appended one is the first. */
  lemma AppendedNewlineFirst(s: string)
    requires IndexOf(s, '\n').None?
    ensures IndexOf(s + "\n", '\n') == Some(|s|)
    ensures (s + "\n")[..|s|] == s && (s + "\n")[|s| + 1..] == []
  {
    var t := s + "\n";
    assert t[|s|] in t;
    assert t[..|s|] == s;
  }

  /** A final line ending is optional: adding one to text that does not
      already end a line yields the same lines. */
  lemma {:induction false} FinalNewlineOptional(s: string)
    requires s != [] && s[|s| - 1] != '\n' && s[|s| - 1] != '\r'
    ensures Lines(s + "\n") == Lines(s)
    decreases |s|
  {
    match IndexOf(s, '\n')
    case None =>
      AppendedNewlineFirst(s);
    case Some(k) =>
      FirstNewlineKept(s, k);
      assert k < |s| - 1;
      FinalNewlineOptional(s[k + 1..]);
  }

  /** The '\n' that `IndexOf` finds is the first one counted. */
  lemma CountAtFirstNewline(s: string, k: nat)
    requires IndexOf(s, '\n') == Some(k)
    ensures CountChar(s, '\n') == 1 + CountChar(s[k + 1..], '\n')
  {
    var rest := s[k + 1..];
    assert s == s[..k] + ("\n" + rest);
    CountCharAppend(s[..k], "\n" + rest, '\n');
    CountCharAbsent(s[..k], '\n');
    assert ("\n" + rest)[1..] == rest;
  }

  /** The number of lines is the number of '\n' characters, plus one when
      the text ends in a line without a '\n'. */
  lemma {:induction false} LineCount(s: string)
    ensures |Lines(s)| == CountChar(s, '\n') + (if s != [] && s[|s| - 1] != '\n' then 1 else 0)
    decreases |s|
  {
    if s != [] {
      match IndexOf(s, '\n')
      case None =>
        CountCharAbsent(s, '\n');
      case Some(k) =>
        var rest := s[k + 1..];
        CountAtFirstNewline(s, k);
        LineCount(rest);
        assert rest != [] ==> rest[|rest| - 1] == s[|s| - 1];
    }
  }
}
