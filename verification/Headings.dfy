/** ATX-like headings: the pattern `^(#{1,6})\s+(.+?)\s*$`, and the chain of headings a
    line of a document stands under. */
module Headings {
  import opened Text

  // ---------------------------------------------------------------- one line

  /** The pattern itself: `level` hash marks, whitespace up to `from`, a title without line
      feeds up to `to`, and nothing but whitespace after it. A regex engine may choose any
      such split. */
  ghost predicate Matches(t: string, level: nat, from: nat, to: nat) {
    && 1 <= level <= 6 && level < from < to <= |t|
    && (forall i | 0 <= i < level :: t[i] == '#')
    && (forall i | level <= i < from :: IsSpace(t[i]))
    && (forall i | from <= i < to :: t[i] != '\n')
    && (forall i | to <= i < |t| :: IsSpace(t[i]))
  }

  function Hashes(t: string): (n: nat)
    ensures n <= |t| && forall i | 0 <= i < n :: t[i] == '#'
    ensures n < |t| ==> t[n] != '#'
  {
    if t == "" || t[0] != '#' then 0 else Hashes(t[1..]) + 1
  }

  /** Where the title begins: after the hash marks and the whitespace that follows them. */
  function TitleStart(t: string): (n: nat)
    ensures Hashes(t) <= n <= |t|
    ensures forall i | Hashes(t) <= i < n :: IsSpace(t[i])
    ensures n < |t| ==> !IsSpace(t[n])
  {
    Hashes(t) + Lead(t[Hashes(t)..])
  }

  /** The decision procedure for trimmed text. */
  predicate IsHeading(t: string) {
    && 1 <= Hashes(t) <= 6 && Hashes(t) < TitleStart(t) < |t|
    && '\n' !in t[TitleStart(t)..]
  }

  function Title(t: string): string {
    Strip(t[TitleStart(t)..])
  }

  /** A match on trimmed text can only be the greedy one: all hash marks, and a title
      that runs to the end of the text. */
  lemma MatchIsGreedy(t: string, k: nat, j: nat, e: nat)
    requires Trimmed(t) && Matches(t, k, j, e)
    ensures k == Hashes(t) && j <= TitleStart(t) < e == |t|
  {
    assert IsSpace(t[k]) && !IsSpace('#');
    assert e == |t|;
  }

  lemma TitleOfMatch(t: string, k: nat, j: nat, e: nat)
    requires Trimmed(t) && Matches(t, k, j, e)
    ensures Strip(t[j..e]) == Title(t)
  {
    MatchIsGreedy(t, k, j, e);
    var h := TitleStart(t);
    var title := t[h..];
    assert title[0] == t[h] && title[|title| - 1] == t[|t| - 1];
    assert AllSpace(t[j..h]) by {
      assert forall i | 0 <= i < h - j :: t[j..h][i] == t[j + i];
    }
    StripOfTrimmed(title);
    assert t[j..e] == t[j..h] + title + "";
    StripUnique(t[j..h], title, "");
  }

  lemma MatchDecided(t: string, k: nat, j: nat, e: nat)
    requires Trimmed(t) && Matches(t, k, j, e)
    ensures IsHeading(t)
  {
    MatchIsGreedy(t, k, j, e);
    var h := TitleStart(t);
    assert forall i | 0 <= i < |t| - h :: t[h..][i] == t[h + i];
  }

  /** On trimmed text the procedure decides the pattern, and every split the engine could
      choose captures the same level and, once stripped, the same title. */
  lemma HeadingDecides(t: string)
    requires Trimmed(t)
    ensures IsHeading(t) <==> exists k: nat, j: nat, e: nat :: Matches(t, k, j, e)
    ensures forall k: nat, j: nat, e: nat | Matches(t, k, j, e) ::
              k == Hashes(t) && Strip(t[j..e]) == Title(t)
  {
    if IsHeading(t) {
      var h := TitleStart(t);
      assert forall i | h <= i < |t| :: t[i] == t[h..][i - h];
      assert Matches(t, Hashes(t), h, |t|);
    }
    forall k: nat, j: nat, e: nat | Matches(t, k, j, e)
      ensures k == Hashes(t) && Strip(t[j..e]) == Title(t) && IsHeading(t)
    {
      MatchIsGreedy(t, k, j, e);
      TitleOfMatch(t, k, j, e);
      MatchDecided(t, k, j, e);
    }
  }

  /** What the scanner sees in a line. */
  datatype Mark = Blank | Plain | Heading(level: nat, title: string)

  function MarkOf(line: string): (m: Mark)
    ensures m.Heading? ==> 1 <= m.level <= 6
  {
    var t := Strip(line);
    if IsHeading(t) then Heading(Hashes(t), Title(t))
    else if t == "" then Blank
    else Plain
  }

  /** A line is a heading of this level and title: without its outer whitespace it matches the
      pattern so. */
  ghost predicate HeadsLine(line: string, level: nat, title: string) {
    exists j: nat, e: nat :: Matches(Strip(line), level, j, e) && title == Strip(Strip(line)[j..e])
  }

  /** The mark of a line is a heading exactly if the line matches the pattern, with the level
      and the title of the match, and blank exactly if the line is whitespace. */
  lemma MarkDecides(line: string)
    ensures forall k: nat, title: string :: MarkOf(line) == Heading(k, title) <==> HeadsLine(line, k, title)
    ensures MarkOf(line) == Blank <==> AllSpace(line)
  {
    var t := Strip(line);
    HeadingDecides(t);
    if IsHeading(t) {
      var k: nat, j: nat, e: nat :| Matches(t, k, j, e);
      assert HeadsLine(line, Hashes(t), Title(t));
    }
    forall k: nat, title: string ensures MarkOf(line) == Heading(k, title) <==> HeadsLine(line, k, title) {
      hide Matches, IsHeading, Title, Hashes;
    }
  }

  // ---------------------------------------------------------------- heading chain

  ghost predicate Levels(marks: seq<Mark>) {
    forall i | 0 <= i < |marks| && marks[i].Heading? :: 1 <= marks[i].level <= 6
  }

  /** Heading `i` is still open at line `n` when no later heading before `n` has the same
      or a smaller level. */
  ghost predicate Open(marks: seq<Mark>, i: nat, n: nat)
    requires n <= |marks|
  {
    && i < n && marks[i].Heading?
    && forall j | i < j < n && marks[j].Heading? :: marks[j].level > marks[i].level
  }

  /** The lines before `m` whose headings are open at line `n`, in document order. */
  ghost function OpenHeadings(marks: seq<Mark>, m: nat, n: nat): (s: seq<nat>)
    requires m <= n <= |marks|
    ensures forall k | 0 <= k < |s| :: s[k] < m
  {
    if m == 0 then []
    else if Open(marks, m - 1, n) then OpenHeadings(marks, m - 1, n) + [m - 1]
    else OpenHeadings(marks, m - 1, n)
  }

  type Stack = seq<(nat, string)>

  ghost function Entry(m: Mark): (nat, string) {
    if m.Heading? then (m.level, m.title) else (0, "")
  }

  ghost function Entries(marks: seq<Mark>, s: seq<nat>): Stack
    requires forall k | 0 <= k < |s| :: s[k] < |marks|
  {
    seq(|s|, k requires 0 <= k < |s| => Entry(marks[s[k]]))
  }

  /** The open headings are exactly the headings for which `Open` holds, in order. */
  lemma {:induction false} OpenHeadingsAre(marks: seq<Mark>, m: nat, n: nat)
    requires m <= n <= |marks|
    ensures var s := OpenHeadings(marks, m, n);
            && (forall k | 0 <= k < |s| :: s[k] < m && Open(marks, s[k], n))
            && (forall k, l | 0 <= k < l < |s| :: s[k] < s[l])
            && (forall i | 0 <= i < m && Open(marks, i, n) :: i in s)
  {
    hide Open;
    if m > 0 {
      OpenHeadingsAre(marks, m - 1, n);
      var rest, s := OpenHeadings(marks, m - 1, n), OpenHeadings(marks, m, n);
      forall i | 0 <= i < m && Open(marks, i, n) ensures i in s {
        if i < m - 1 { assert i in rest; } else { assert s == rest + [i]; }
      }
    }
  }

  /** The heading stack that the definition of `Open` asks for at line `n`. */
  ghost function StackAt(marks: seq<Mark>, n: nat): Stack
    requires n <= |marks|
  {
    Entries(marks, OpenHeadings(marks, n, n))
  }

  function Titles(stack: Stack): seq<string> {
    seq(|stack|, k requires 0 <= k < |stack| => stack[k].1)
  }

  /** The heading path at line `n`: the titles of the headings open there. */
  ghost function PathAt(marks: seq<Mark>, n: nat): seq<string>
    requires n <= |marks|
  {
    Titles(StackAt(marks, n))
  }

  /** The scanner's list comprehension: the entries above a new heading's level. */
  function Shallower(stack: Stack, level: nat): Stack {
    if stack == [] then []
    else
      var rest := Shallower(stack[..|stack| - 1], level);
      if stack[|stack| - 1].0 < level then rest + [stack[|stack| - 1]] else rest
  }

  lemma EntriesSnoc(marks: seq<Mark>, s: seq<nat>, i: nat)
    requires i < |marks| && forall k | 0 <= k < |s| :: s[k] < |marks|
    ensures Entries(marks, s + [i]) == Entries(marks, s) + [Entry(marks[i])]
  {
  }

  lemma ShallowerSnoc(stack: Stack, e: (nat, string), level: nat)
    ensures Shallower(stack + [e], level)
            == if e.0 < level then Shallower(stack, level) + [e] else Shallower(stack, level)
  {
    assert (stack + [e])[..|stack|] == stack;
  }

  lemma {:induction false} OpenAfterHeading(marks: seq<Mark>, m: nat, n: nat)
    requires m <= n < |marks| && marks[n].Heading?
    ensures Entries(marks, OpenHeadings(marks, m, n + 1))
            == Shallower(Entries(marks, OpenHeadings(marks, m, n)), marks[n].level)
  {
    if m > 0 {
      OpenAfterHeading(marks, m - 1, n);
      var before, after := OpenHeadings(marks, m - 1, n), OpenHeadings(marks, m - 1, n + 1);
      assert Open(marks, m - 1, n + 1) <==> Open(marks, m - 1, n) && marks[m - 1].level < marks[n].level;
      if Open(marks, m - 1, n) {
        EntriesSnoc(marks, before, m - 1);
        EntriesSnoc(marks, after, m - 1);
        ShallowerSnoc(Entries(marks, before), Entry(marks[m - 1]), marks[n].level);
      }
    }
  }

  lemma {:induction false} OpenAfterText(marks: seq<Mark>, m: nat, n: nat)
    requires m <= n < |marks| && !marks[n].Heading?
    ensures OpenHeadings(marks, m, n + 1) == OpenHeadings(marks, m, n)
  {
    if m > 0 {
      OpenAfterText(marks, m - 1, n);
      assert Open(marks, m - 1, n + 1) <==> Open(marks, m - 1, n);
    }
  }

  /** One line moves the stack exactly as the scanner moves it. */
  lemma StackStep(marks: seq<Mark>, n: nat)
    requires n < |marks|
    ensures StackAt(marks, n + 1)
            == if marks[n].Heading? then Shallower(StackAt(marks, n), marks[n].level) + [Entry(marks[n])]
               else StackAt(marks, n)
  {
    if marks[n].Heading? {
      OpenAfterHeading(marks, n, n);
      assert Open(marks, n, n + 1);
      EntriesSnoc(marks, OpenHeadings(marks, n, n + 1), n);
    } else {
      OpenAfterText(marks, n, n);
    }
  }

  /** The levels on the stack strictly increase, so it is never more than six deep. */
  lemma StackIncreases(marks: seq<Mark>, n: nat)
    requires Levels(marks) && n <= |marks|
    ensures var s := StackAt(marks, n);
            && (forall k, l | 0 <= k < l < |s| :: 1 <= s[k].0 < s[l].0 <= 6)
            && |s| <= 6
  {
    PathIsOpenChain(marks, n);
    var o, s := OpenHeadings(marks, n, n), StackAt(marks, n);
    forall k, l | 0 <= k < l < |s| ensures 1 <= s[k].0 < s[l].0 <= 6 {
      assert Open(marks, o[k], n) && Open(marks, o[l], n);
    }
    if |s| > 0 {
      assert Open(marks, o[|s| - 1], n) && Open(marks, o[0], n);
      AtLeastIndex(s, |s|);
    }
  }

  lemma {:induction false} AtLeastIndex(s: Stack, n: nat)
    requires 1 <= n <= |s| && s[0].0 >= 1
    requires forall k, l | 0 <= k < l < |s| :: s[k].0 < s[l].0
    ensures s[n - 1].0 >= n
  {
    if n > 1 {
      AtLeastIndex(s, n - 1);
      assert s[n - 2].0 < s[n - 1].0;
    }
  }

  /** Read from the outside: entry `k` of the path is the title of the `k`-th open heading,
      and every open heading is on it. */
  lemma PathIsOpenChain(marks: seq<Mark>, n: nat)
    requires n <= |marks|
    ensures var o := OpenHeadings(marks, n, n);
            && |PathAt(marks, n)| == |o|
            && (forall k | 0 <= k < |o| :: Open(marks, o[k], n) && PathAt(marks, n)[k] == marks[o[k]].title)
            && (forall k, l | 0 <= k < l < |o| :: o[k] < o[l])
            && (forall i | 0 <= i < n :: i in o <==> Open(marks, i, n))
  {
    OpenHeadingsAre(marks, n, n);
  }

  // ---------------------------------------------------------------- the lines of a document

  /** No later line before `n` is a heading of the same or a smaller level. */
  ghost predicate StillOpen(lines: seq<string>, i: nat, level: nat, n: nat)
    requires n <= |lines|
  {
    forall j, k: nat, title | i < j < n && HeadsLine(lines[j], k, title) :: k > level
  }

  /** Line `i` is a heading of this title that is still open at line `n`. */
  ghost predicate HeadsUntil(lines: seq<string>, i: nat, title: string, n: nat)
    requires n <= |lines|
  {
    i < n && exists level: nat :: HeadsLine(lines[i], level, title) && StillOpen(lines, i, level, n)
  }

  /** The path consists of the titles of the lines `o`, which are exactly the headings open at
      line `n`, from the top of the document down. */
  ghost predicate Chain(lines: seq<string>, n: nat, path: seq<string>, o: seq<nat>)
    requires n <= |lines|
  {
    && |path| == |o|
    && (forall k | 0 <= k < |o| :: HeadsUntil(lines, o[k], path[k], n))
    && (forall k, l | 0 <= k < l < |o| :: o[k] < o[l])
    && (forall i: nat, title | HeadsUntil(lines, i, title, n) :: i in o)
  }

  /** The headings that the first `n` lines leave open, told by matches of the lines. */
  ghost predicate StandsUnder(lines: seq<string>, n: nat, path: seq<string>) {
    n <= |lines| && exists o: seq<nat> :: Chain(lines, n, path, o)
  }

  lemma OpenIsHeadsUntil(lines: seq<string>, marks: seq<Mark>, i: nat, title: string, n: nat)
    requires |marks| == |lines| && n <= |lines| && forall k | 0 <= k < |lines| :: marks[k] == MarkOf(lines[k])
    ensures HeadsUntil(lines, i, title, n) <==> Open(marks, i, n) && marks[i].title == title
  {
    hide MarkOf, HeadsLine;
    forall j | 0 <= j < n
      ensures forall k: nat, t: string :: marks[j] == Heading(k, t) <==> HeadsLine(lines[j], k, t)
    {
      MarkDecides(lines[j]);
    }
    if Open(marks, i, n) && marks[i].title == title {
      assert HeadsLine(lines[i], marks[i].level, title);
      assert StillOpen(lines, i, marks[i].level, n);
    }
    if HeadsUntil(lines, i, title, n) {
      var level: nat :| HeadsLine(lines[i], level, title) && StillOpen(lines, i, level, n);
      assert marks[i] == Heading(level, title);
      forall j | i < j < n && marks[j].Heading? ensures marks[j].level > level {
        assert HeadsLine(lines[j], marks[j].level, marks[j].title);
      }
    }
  }

  /** The path at line `n` tells exactly the headings open there. */
  lemma PathStandsUnder(lines: seq<string>, marks: seq<Mark>, n: nat)
    requires |marks| == |lines| && n <= |lines| && forall k | 0 <= k < |lines| :: marks[k] == MarkOf(lines[k])
    ensures StandsUnder(lines, n, PathAt(marks, n))
  {
    hide MarkOf, HeadsUntil, PathAt;
    PathIsOpenChain(marks, n);
    var o, path := OpenHeadings(marks, n, n), PathAt(marks, n);
    forall k | 0 <= k < |o| ensures HeadsUntil(lines, o[k], path[k], n) {
      OpenIsHeadsUntil(lines, marks, o[k], path[k], n);
    }
    forall i: nat, title: string | HeadsUntil(lines, i, title, n) ensures i in o {
      OpenIsHeadsUntil(lines, marks, i, title, n);
    }
    assert Chain(lines, n, path, o);
  }
}
