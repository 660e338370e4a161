/** The fragment of Python's string library that the document parser relies on:
    `str.strip`, `str.splitlines`, `"\n".join` and the whitespace class `\s`. */
module Text {

  /** The characters for which `str.isspace` holds; `\s` and `strip` use the same class. */
  predicate IsSpace(c: char) {
    || '\t' <= c <= '\r' || '\U{1C}' <= c <= '\U{20}' || c == '\U{85}' || c == '\U{A0}'
    || c == '\U{1680}' || '\U{2000}' <= c <= '\U{200A}' || c == '\U{2028}' || c == '\U{2029}'
    || c == '\U{202F}' || c == '\U{205F}' || c == '\U{3000}'
  }

  /** The characters at which `str.splitlines` ends a line. */
  predicate IsLineBreak(c: char) {
    '\n' <= c <= '\r' || '\U{1C}' <= c <= '\U{1E}' || c == '\U{85}' || c == '\U{2028}' || c == '\U{2029}'
  }

  lemma SpacesAre(c: char)
    ensures IsSpace(c) <==>
            c in "\t\n\U{B}\U{C}\r\U{1C}\U{1D}\U{1E}\U{1F} \U{85}\U{A0}\U{1680}\U{2000}\U{2001}\U{2002}\U{2003}"
               + "\U{2004}\U{2005}\U{2006}\U{2007}\U{2008}\U{2009}\U{200A}\U{2028}\U{2029}\U{202F}\U{205F}\U{3000}"
    ensures IsLineBreak(c) <==> c in "\n\U{B}\U{C}\r\U{1C}\U{1D}\U{1E}\U{85}\U{2028}\U{2029}"
  {
  }

  ghost predicate AllSpace(s: string) {
    forall i | 0 <= i < |s| :: IsSpace(s[i])
  }

  ghost predicate Trimmed(s: string) {
    s != "" ==> !IsSpace(s[0]) && !IsSpace(s[|s| - 1])
  }

  // ---------------------------------------------------------------- strip

  /** The number of leading whitespace characters. */
  function Lead(s: string): (n: nat)
    ensures n <= |s|
    ensures forall i | 0 <= i < n :: IsSpace(s[i])
    ensures n < |s| ==> !IsSpace(s[n])
  {
    if s == "" || !IsSpace(s[0]) then 0 else Lead(s[1..]) + 1
  }

  /** The length that remains once trailing whitespace is removed. */
  function Keep(s: string): (n: nat)
    ensures n <= |s|
    ensures forall i | n <= i < |s| :: IsSpace(s[i])
    ensures n > 0 ==> !IsSpace(s[n - 1])
  {
    if s == "" || !IsSpace(s[|s| - 1]) then |s| else Keep(s[..|s| - 1])
  }

  lemma LeadBeforeKeep(s: string)
    ensures Keep(s) == 0 ==> Lead(s) == |s|
    ensures Keep(s) > 0 ==> Lead(s) < Keep(s)
  {}

  /** `str.strip`. */
  function Strip(s: string): (r: string)
    ensures Trimmed(r)
    ensures r == "" <==> AllSpace(s)
  {
    LeadBeforeKeep(s);
    if Keep(s) == 0 then "" else s[Lead(s)..Keep(s)]
  }

  /** What `Strip` returns is the only trimmed core of the text: if `s` is whitespace,
      a trimmed middle and whitespace, the middle is the result. */
  lemma StripUnique(a: string, m: string, b: string)
    requires AllSpace(a) && AllSpace(b) && Trimmed(m)
    ensures Strip(a + m + b) == m
  {
    var s := a + m + b;
    LeadBeforeKeep(s);
    assert forall i | 0 <= i < |a| :: s[i] == a[i];
    assert forall i | |a| + |m| <= i < |s| :: s[i] == b[i - |a| - |m|];
    if m != "" {
      assert s[|a|] == m[0] && s[|a| + |m| - 1] == m[|m| - 1];
      assert Lead(s) == |a| && Keep(s) == |a| + |m|;
      assert s[|a|..|a| + |m|] == m;
    }
  }

  lemma StripOfTrimmed(s: string)
    requires Trimmed(s)
    ensures Strip(s) == s
  {
    assert "" + s + "" == s;
    StripUnique("", s, "");
  }

  lemma StripTrailing(s: string, b: string)
    requires AllSpace(b)
    ensures Strip(s + b) == Strip(s)
  {
    LeadBeforeKeep(s);
    if Keep(s) == 0 {
      assert AllSpace(s + b);
    } else {
      var k, n := Lead(s), Keep(s);
      var tail := s[n..] + b;
      assert AllSpace(tail);
      assert s + b == s[..k] + s[k..n] + tail;
      StripUnique(s[..k], s[k..n], tail);
    }
  }

  // ---------------------------------------------------------------- lines

  /** The index of the first line break, or the length when there is none. */
  function FirstBreak(s: string): (n: nat)
    ensures n <= |s| && (n < |s| ==> IsLineBreak(s[n]))
    ensures forall i | 0 <= i < n :: !IsLineBreak(s[i])
  {
    if s == "" || IsLineBreak(s[0]) then 0 else FirstBreak(s[1..]) + 1
  }

  /** A carriage return and the line feed after it end one line, not two. */
  function BreakLength(s: string, at: nat): (n: nat)
    requires at < |s|
    ensures 1 <= n <= 2 && at + n <= |s|
  {
    if s[at] == '\r' && at + 1 < |s| && s[at + 1] == '\n' then 2 else 1
  }

  /** `str.splitlines`. */
  function SplitLines(s: string): seq<string>
    decreases |s|
  {
    if s == "" then []
    else
      var e := FirstBreak(s);
      if e == |s| then [s]
      else [s[..e]] + SplitLines(s[e + BreakLength(s, e)..])
  }

  /** What ends a line: a carriage return with its line feed, or one break character. */
  ghost predicate IsBreak(b: string) {
    b == "\r\n" || (|b| == 1 && IsLineBreak(b[0]))
  }

  ghost function Woven(lines: seq<string>, breaks: seq<string>): string
    requires |lines| == |breaks|
  {
    if lines == [] then "" else lines[0] + breaks[0] + Woven(lines[1..], breaks[1..])
  }

  /** The text is the lines, each followed by its break. No line has a break inside, only the
      last one may do without, and then it is not empty; a carriage return and a line feed after
      it are never taken apart. */
  ghost predicate Lines(s: string, lines: seq<string>, breaks: seq<string>) {
    && |lines| == |breaks| && Woven(lines, breaks) == s
    && (forall k | 0 <= k < |lines| :: FirstBreak(lines[k]) == |lines[k]|)
    && (forall k | 0 <= k < |lines| ::
          IsBreak(breaks[k]) || (k == |lines| - 1 && breaks[k] == "" && lines[k] != ""))
    && (forall k | 0 < k < |lines| :: !(breaks[k - 1] == "\r" && lines[k] == "" && breaks[k] == "\n"))
  }

  ghost function Breaks(s: string): seq<string>
    decreases |s|
  {
    if s == "" then []
    else
      var e := FirstBreak(s);
      if e == |s| then [""]
      else [s[e..e + BreakLength(s, e)]] + Breaks(s[e + BreakLength(s, e)..])
  }

  /** One line more at the front. */
  lemma LinesCons(s: string, line: string, b: string, rest: string, lines: seq<string>, breaks: seq<string>)
    requires s == line + b + rest && Lines(rest, lines, breaks) && FirstBreak(line) == |line| && IsBreak(b)
    requires !(b == "\r" && rest != "" && rest[0] == '\n')
    ensures Lines(s, [line] + lines, [b] + breaks)
  {
    var l, p := [line] + lines, [b] + breaks;
    assert l[1..] == lines && p[1..] == breaks;
    forall k | 0 < k < |l| ensures !(p[k - 1] == "\r" && l[k] == "" && p[k] == "\n") {
      if k > 1 {
        assert !(breaks[k - 2] == "\r" && lines[k - 1] == "" && breaks[k - 1] == "\n");
      } else if l[1] == "" && p[1] == "\n" {
        assert rest == "" + "\n" + Woven(lines[1..], breaks[1..]);
      }
    }
  }

  lemma BreakIsWhole(s: string, e: nat)
    requires e < |s| && IsLineBreak(s[e])
    ensures var n := e + BreakLength(s, e);
            IsBreak(s[e..n]) && !(s[e..n] == "\r" && s[n..] != "" && s[n..][0] == '\n')
  {
  }

  lemma {:induction false} SplitLinesWeave(s: string)
    ensures Lines(s, SplitLines(s), Breaks(s))
    decreases |s|
  {
    hide Lines, IsBreak, IsLineBreak, BreakLength, Woven;
    if s == "" || FirstBreak(s) == |s| {
      OneLineAtMost(s);
    } else {
      SplitLinesWeave(s[FirstBreak(s) + BreakLength(s, FirstBreak(s))..]);
      WeaveOneMore(s);
    }
  }

  lemma WovenOne(s: string)
    ensures Woven([], []) == "" && Woven([s], [""]) == s
  {
    assert [s][1..] == [] && [""][1..] == [];
    assert s + "" + "" == s;
  }

  lemma OneLineAtMost(s: string)
    requires s == "" || FirstBreak(s) == |s|
    ensures Lines(s, SplitLines(s), Breaks(s))
  {
    hide FirstBreak, IsLineBreak, Woven;
    WovenOne(s);
  }

  lemma WeaveOneMore(s: string)
    requires s != "" && FirstBreak(s) < |s|
    requires var rest := s[FirstBreak(s) + BreakLength(s, FirstBreak(s))..];
             Lines(rest, SplitLines(rest), Breaks(rest))
    ensures Lines(s, SplitLines(s), Breaks(s))
  {
    hide Lines, IsBreak, IsLineBreak, FirstBreak, BreakLength, Woven;
    var e := FirstBreak(s);
    var n := e + BreakLength(s, e);
    NoBreakBefore(s, e);
    BreakIsWhole(s, e);
    assert s == s[..e] + s[e..n] + s[n..];
    LinesCons(s, s[..e], s[e..n], s[n..], SplitLines(s[n..]), Breaks(s[n..]));
  }

  lemma NoBreakBefore(s: string, e: nat)
    requires e <= |s| && forall i | 0 <= i < e :: !IsLineBreak(s[i])
    ensures FirstBreak(s[..e]) == e
    ensures e < |s| && IsLineBreak(s[e]) ==> FirstBreak(s) == e
  {
    assert forall i | 0 <= i < e :: s[..e][i] == s[i];
  }

  /** Such a division of a text into lines is the only one, and it is the one made. */
  lemma {:induction false} SplitLinesAre(s: string, lines: seq<string>, breaks: seq<string>)
    ensures Lines(s, lines, breaks) ==> lines == SplitLines(s)
    ensures Lines(s, SplitLines(s), Breaks(s))
    decreases |lines|
  {
    SplitLinesWeave(s);
    if Lines(s, lines, breaks) && lines != [] {
      hide Lines, IsBreak;
      LinesHead(s, lines, breaks);
      if breaks[0] != "" {
        LinesTail(s, lines, breaks);
        SplitLinesAre(Woven(lines[1..], breaks[1..]), lines[1..], breaks[1..]);
      }
    }
  }

  lemma LinesHead(s: string, lines: seq<string>, breaks: seq<string>)
    requires Lines(s, lines, breaks) && lines != []
    ensures var e := FirstBreak(s);
            && lines[0] == s[..e]
            && |breaks| == |lines|
            && if breaks[0] == "" then lines == [s] && s != "" && e == |s|
               else e < |s| && e + |breaks[0]| <= |s| && s[e + |breaks[0]|..] == Woven(lines[1..], breaks[1..])
  {
    hide IsLineBreak, FirstBreak;
    var line, b, rest := lines[0], breaks[0], Woven(lines[1..], breaks[1..]);
    assert FirstBreak(line) == |line|;
    BrokenAt(line, b, rest);
    if b == "" {
      assert lines == [line];
      assert s == line + "" + "" == line;
    } else {
      assert IsBreak(b);
      BreakStarts(b);
    }
  }

  lemma BreakStarts(b: string)
    requires IsBreak(b)
    ensures IsLineBreak(b[0])
  {
  }

  /** A line without a break inside, a break and the rest. */
  lemma BrokenAt(line: string, b: string, rest: string)
    requires FirstBreak(line) == |line|
    ensures var s := line + b + rest;
            && s[..|line|] == line && s[|line| + |b|..] == rest
            && (b != "" && IsLineBreak(b[0]) ==> FirstBreak(s) == |line|)
  {
    hide IsLineBreak, FirstBreak;
    ThreeParts(line, b, rest);
    NoBreakBefore(line + b + rest, |line|);
  }

  lemma ThreeParts(a: string, b: string, c: string)
    ensures var s := a + b + c;
            && s[..|a|] == a && s[|a| + |b|..] == c && (b != "" ==> s[|a|] == b[0])
            && forall i | 0 <= i < |a| :: s[i] == a[i]
  {
  }

  lemma LinesTail(s: string, lines: seq<string>, breaks: seq<string>)
    requires Lines(s, lines, breaks) && lines != [] && breaks[0] != ""
    ensures Lines(Woven(lines[1..], breaks[1..]), lines[1..], breaks[1..])
    ensures BreakLength(s, |lines[0]|) == |breaks[0]|
  {
    var l, p, rest := lines[1..], breaks[1..], Woven(lines[1..], breaks[1..]);
    forall k | 0 < k < |l| ensures !(p[k - 1] == "\r" && l[k] == "" && p[k] == "\n") {
      assert !(breaks[k] == "\r" && lines[k + 1] == "" && breaks[k + 1] == "\n");
    }
    var e := |lines[0]|;
    assert s == lines[0] + breaks[0] + rest && IsBreak(breaks[0]);
    assert forall i | 0 <= i < |breaks[0]| :: s[e + i] == breaks[0][i];
    if breaks[0] == "\r" && rest != "" {
      assert s[e + 1] == rest[0] && rest == l[0] + p[0] + Woven(l[1..], p[1..]);
      if l[0] != "" {
        assert rest[0] == l[0][0] && FirstBreak(l[0]) == |l[0]|;
      } else {
        assert rest[0] == p[0][0];
      }
    }
  }

  /** `"\n".join`. */
  function Join(lines: seq<string>): string {
    if |lines| == 0 then ""
    else if |lines| == 1 then lines[0]
    else lines[0] + "\n" + Join(lines[1..])
  }

  /** Every line followed by one line feed. */
  ghost function Full(lines: seq<string>): string {
    if lines == [] then "" else lines[0] + "\n" + Full(lines[1..])
  }

  /** The scanner's `position` before line `n`: one character is charged for each break. */
  ghost function Pos(lines: seq<string>, n: nat): nat
    requires n <= |lines|
  {
    if n == 0 then 0 else Pos(lines, n - 1) + |lines[n - 1]| + 1
  }

  ghost predicate OnlyLineFeeds(s: string) {
    forall i | 0 <= i < |s| && IsLineBreak(s[i]) :: s[i] == '\n'
  }

  lemma FullIsJoin(lines: seq<string>)
    requires lines != []
    ensures Full(lines) == Join(lines) + "\n"
  {
    if |lines| > 1 { FullIsJoin(lines[1..]); }
  }

  lemma FullAppend(a: seq<string>, b: seq<string>)
    ensures Full(a + b) == Full(a) + Full(b)
  {
    if a == [] {
      assert a + b == b;
    } else {
      assert (a + b)[1..] == a[1..] + b;
      FullAppend(a[1..], b);
      assert a[0] + "\n" + (Full(a[1..]) + Full(b)) == a[0] + "\n" + Full(a[1..]) + Full(b);
    }
  }

  lemma FullLength(lines: seq<string>, n: nat)
    requires n <= |lines|
    ensures |Full(lines[..n])| == Pos(lines, n)
  {
    if n > 0 {
      FullLength(lines, n - 1);
      assert lines[..n] == lines[..n - 1] + [lines[n - 1]];
      FullAppend(lines[..n - 1], [lines[n - 1]]);
      assert Full([lines[n - 1]]) == lines[n - 1] + "\n" + "";
    }
  }

  lemma PosMonotone(lines: seq<string>, a: nat, b: nat)
    requires a <= b <= |lines|
    ensures Pos(lines, a) + (b - a) <= Pos(lines, b)
  {
    if a < b { PosMonotone(lines, a, b - 1); }
  }

  /** The length of a joined group of lines, measured by the scanner's own positions. */
  lemma JoinLength(lines: seq<string>, a: nat, b: nat)
    requires a < b <= |lines|
    ensures |Join(lines[a..b])| + 1 == Pos(lines, b) - Pos(lines, a)
  {
    FullIsJoin(lines[a..b]);
    assert lines[..b] == lines[..a] + lines[a..b];
    FullAppend(lines[..a], lines[a..b]);
    FullLength(lines, a);
    FullLength(lines, b);
  }

  lemma FullOfSplitLength(s: string)
    ensures |Full(SplitLines(s))| <= |s| + 1
    decreases |s|
  {
    if s != "" && FirstBreak(s) < |s| {
      var e := FirstBreak(s);
      var rest := s[e + BreakLength(s, e)..];
      FullOfSplitLength(rest);
      var lines := SplitLines(s);
      assert lines[0] == s[..e] && lines[1..] == SplitLines(rest);
    }
  }

  /** With line feeds as the only breaks, the first line is cut at a line feed and the
      rest of the text has no other breaks either. */
  lemma FirstLine(s: string)
    requires s != "" && OnlyLineFeeds(s)
    ensures var e := FirstBreak(s);
            e < |s| ==>
              var rest := s[e + 1..];
              && OnlyLineFeeds(rest)
              && s == s[..e] + "\n" + rest
              && SplitLines(s) == [s[..e]] + SplitLines(rest)
  {
    var e := FirstBreak(s);
    if e < |s| {
      assert s[e] == '\n';
      var rest := s[e + 1..];
      forall i | 0 <= i < |rest| && IsLineBreak(rest[i]) ensures rest[i] == '\n' {
        assert s[e + 1 + i] == rest[i];
      }
    }
  }

  lemma FullCons(line: string, lines: seq<string>)
    ensures Full([line] + lines) == line + "\n" + Full(lines)
  {
    assert ([line] + lines)[1..] == lines;
  }

  /** With line feeds as the only breaks nothing but a missing last line feed is lost. */
  lemma FullOfSplit(s: string)
    requires OnlyLineFeeds(s)
    ensures Full(SplitLines(s)) == s || Full(SplitLines(s)) == s + "\n"
    decreases |s|
  {
    if s != "" {
      var e := FirstBreak(s);
      FirstLine(s);
      if e == |s| {
        FullCons(s, []);
        assert s + "\n" + "" == s + "\n";
      } else {
        FullOfSplit(s[e + 1..]);
        FullCons(s[..e], SplitLines(s[e + 1..]));
        assert s[..e] + "\n" + (s[e + 1..] + "\n") == s + "\n";
      }
    }
  }

  /** The scanner's positions never pass the end of the text by more than the missing
      last line feed, whatever the breaks are. */
  lemma PosBound(s: string)
    ensures Pos(SplitLines(s), |SplitLines(s)|) <= |s| + 1
  {
    var lines := SplitLines(s);
    FullOfSplitLength(s);
    FullLength(lines, |lines|);
    assert lines[..|lines|] == lines;
  }

  /** Lines `a..b` of a text, each with its line feed, are a slice of all of them. */
  lemma SliceOfFull(lines: seq<string>, a: nat, b: nat)
    requires a < b <= |lines|
    ensures Pos(lines, a) < Pos(lines, b) <= |Full(lines)|
    ensures b == |lines| ==> Pos(lines, b) == |Full(lines)|
    ensures Full(lines)[Pos(lines, a)..Pos(lines, b)] == Join(lines[a..b]) + "\n"
  {
    FullIsJoin(lines[a..b]);
    FullLength(lines, a);
    FullLength(lines, b);
    PosMonotone(lines, a, b);
    assert lines[..b] == lines[..a] + lines[a..b];
    FullAppend(lines[..a], lines[a..b]);
    assert lines == lines[..b] + lines[b..];
    FullAppend(lines[..b], lines[b..]);
  }

  /** With line feeds as the only breaks, a group of lines is a slice of the text. */
  lemma SliceOfLines(s: string, a: nat, b: nat)
    requires OnlyLineFeeds(s)
    requires a < b <= |SplitLines(s)|
    ensures var lines := SplitLines(s);
            var end := if b == |lines| then |s| else Pos(lines, b);
            Pos(lines, a) <= end <= |s| && Strip(s[Pos(lines, a)..end]) == Strip(Join(lines[a..b]))
  {
    var lines := SplitLines(s);
    FullOfSplit(s);
    SliceOfFull(lines, a, b);
    if b < |lines| { SliceOfFull(lines, b, b + 1); }
    SlicePrefix(s, Full(lines), Pos(lines, a), Pos(lines, b), Join(lines[a..b]), b == |lines|);
    assert AllSpace("\n");
    StripTrailing(Join(lines[a..b]), "\n");
  }

  /** The same slice taken from a text and from that text with a line feed added. */
  lemma SlicePrefix(s: string, f: string, p: nat, q: nat, g: string, last: bool)
    requires f == s || f == s + "\n"
    requires p < q <= |f| && f[p..q] == g + "\n" && (if last then q == |f| else q < |f|)
    ensures var end := if last then |s| else q;
            p <= end <= |s| && (s[p..end] == g || s[p..end] == g + "\n")
  {
    assert |f[p..q]| == |g| + 1;
    if last && f != s {
      assert s[p..|s|] == f[p..q][..|g|];
      assert (g + "\n")[..|g|] == g;
    } else {
      assert s[p..q] == f[p..q];
    }
  }
}
