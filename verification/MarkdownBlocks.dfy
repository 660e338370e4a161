/** The line scanner that cuts a document into blocks: runs of lines ended by a blank line,
    a heading or the end of the text, each with its heading path and character offsets. */
module MarkdownBlocks {
  import opened Text
  import opened Headings

  datatype Block = Block(text: string, headingPath: seq<string>, charStart: nat, charEnd: nat)

  /** Lines `from..to` of the document. */
  datatype Group = Group(from: nat, to: nat)

  ghost function MarksOf(lines: seq<string>): (marks: seq<Mark>)
    ensures |marks| == |lines| && Levels(marks)
  {
    seq(|lines|, k requires 0 <= k < |lines| => MarkOf(lines[k]))
  }

  // ---------------------------------------------------------------- specification

  /** The first line at or after `j` that does not continue a group. */
  ghost function GroupEnd(marks: seq<Mark>, j: nat): (k: nat)
    requires j <= |marks|
    ensures j <= k <= |marks| && (k < |marks| ==> !marks[k].Plain?)
    ensures forall l | j <= l < k :: marks[l].Plain?
    decreases |marks| - j
  {
    if j < |marks| && marks[j].Plain? then GroupEnd(marks, j + 1) else j
  }

  /** The groups of lines from line `i` on. */
  ghost function Groups(marks: seq<Mark>, i: nat): seq<Group>
    requires i <= |marks|
    decreases |marks| - i
  {
    if i == |marks| then []
    else if marks[i].Blank? then Groups(marks, i + 1)
    else [Group(i, GroupEnd(marks, i + 1))] + Groups(marks, GroupEnd(marks, i + 1))
  }

  ghost predicate InRange(lines: seq<string>, gs: seq<Group>) {
    forall k | 0 <= k < |gs| :: gs[k].from < gs[k].to <= |lines|
  }

  ghost function GroupText(lines: seq<string>, g: Group): string
    requires g.from < g.to <= |lines|
  {
    Strip(Join(lines[g.from..g.to]))
  }

  /** A group becomes a block unless its text is empty or matches the heading pattern. */
  ghost predicate IsKept(lines: seq<string>, g: Group)
    requires g.from < g.to <= |lines|
  {
    GroupText(lines, g) != "" && !IsHeading(GroupText(lines, g))
  }

  ghost function Kept(lines: seq<string>, gs: seq<Group>): (r: seq<Group>)
    requires InRange(lines, gs)
    ensures InRange(lines, r)
  {
    if gs == [] then []
    else
      var rest := Kept(lines, gs[..|gs| - 1]);
      if IsKept(lines, gs[|gs| - 1]) then rest + [gs[|gs| - 1]] else rest
  }

  ghost function BlockOf(content: string, g: Group): Block
    requires g.from < g.to <= |SplitLines(content)|
  {
    var lines := SplitLines(content);
    Block(GroupText(lines, g),
          PathAt(MarksOf(lines), g.from + 1),
          Pos(lines, g.from),
          if g.to == |lines| then |content| else Pos(lines, g.to))
  }

  ghost function BlocksFor(content: string, gs: seq<Group>): (r: seq<Block>)
    requires InRange(SplitLines(content), gs)
    ensures |r| == |gs|
  {
    seq(|gs|, k requires 0 <= k < |gs| => BlockOf(content, gs[k]))
  }

  /** The groups of a document that become blocks, in order. */
  ghost function KeptGroups(content: string): (r: seq<Group>)
    ensures InRange(SplitLines(content), r)
  {
    var lines := SplitLines(content);
    GroupsPartition(MarksOf(lines), 0);
    Kept(lines, Groups(MarksOf(lines), 0))
  }

  ghost function Blocks(content: string): (r: seq<Block>)
    ensures |r| == |KeptGroups(content)|
  {
    BlocksFor(content, KeptGroups(content))
  }

  // ---------------------------------------------------------------- groups

  ghost predicate Ordered(gs: seq<Group>) {
    && (forall k | 0 <= k < |gs| :: gs[k].from < gs[k].to)
    && (forall k, l | 0 <= k < l < |gs| :: gs[k].to <= gs[l].from)
  }

  /** A group is a maximal run: no blank line in it, no heading after its first line, and
      after it a blank line, a heading or the end. */
  ghost predicate Maximal(marks: seq<Mark>, g: Group) {
    && g.from < g.to <= |marks|
    && !marks[g.from].Blank?
    && (forall l | g.from < l < g.to :: marks[l].Plain?)
    && (g.to < |marks| ==> !marks[g.to].Plain?)
  }

  ghost predicate Covered(gs: seq<Group>, l: nat) {
    exists k :: 0 <= k < |gs| && gs[k].from <= l < gs[k].to
  }

  /** The groups are disjoint maximal runs and hold every line that is not blank. */
  lemma {:induction false} GroupsPartition(marks: seq<Mark>, i: nat)
    requires i <= |marks|
    ensures var gs := Groups(marks, i);
            && Ordered(gs)
            && (forall k | 0 <= k < |gs| :: i <= gs[k].from && Maximal(marks, gs[k]))
            && (forall l | i <= l < |marks| && !marks[l].Blank? :: Covered(gs, l))
    decreases |marks| - i
  {
    if i < |marks| {
      if marks[i].Blank? {
        GroupsPartition(marks, i + 1);
      } else {
        var e := GroupEnd(marks, i + 1);
        GroupsPartition(marks, e);
        var g, rest := Group(i, e), Groups(marks, e);
        assert Maximal(marks, g);
        OrderedCons(g, rest);
        forall l | i <= l < |marks| && !marks[l].Blank? ensures Covered([g] + rest, l) {
          CoveredCons(g, rest, l);
        }
      }
    }
  }

  lemma OrderedCons(g: Group, rest: seq<Group>)
    requires g.from < g.to && Ordered(rest) && forall k | 0 <= k < |rest| :: g.to <= rest[k].from
    ensures Ordered([g] + rest)
  {
    var gs := [g] + rest;
    forall k, l | 0 <= k < l < |gs| ensures gs[k].to <= gs[l].from {
      if k > 0 { assert rest[k - 1].to <= rest[l - 1].from; }
    }
  }

  lemma CoveredCons(g: Group, rest: seq<Group>, l: nat)
    requires g.from <= l < g.to || Covered(rest, l)
    ensures Covered([g] + rest, l)
  {
    var gs := [g] + rest;
    if g.from <= l < g.to {
      assert gs[0] == g;
    } else {
      var k :| 0 <= k < |rest| && rest[k].from <= l < rest[k].to;
      assert gs[k + 1] == rest[k];
    }
  }

  lemma {:induction false} KeptMember(lines: seq<string>, gs: seq<Group>, g: Group)
    requires InRange(lines, gs) && g.from < g.to <= |lines|
    ensures g in Kept(lines, gs) <==> g in gs && IsKept(lines, g)
  {
    hide IsKept;
    if gs != [] {
      var init, last := gs[..|gs| - 1], gs[|gs| - 1];
      assert gs == init + [last];
      KeptMember(lines, init, g);
    }
  }

  lemma {:induction false} KeptOrdered(lines: seq<string>, gs: seq<Group>)
    requires InRange(lines, gs) && Ordered(gs)
    ensures Ordered(Kept(lines, gs))
  {
    hide IsKept;
    if gs != [] {
      var init, last := gs[..|gs| - 1], gs[|gs| - 1];
      KeptOrdered(lines, init);
      var rest := Kept(lines, init);
      forall k | 0 <= k < |rest| ensures rest[k].to <= last.from {
        KeptMember(lines, init, rest[k]);
        var l :| 0 <= l < |init| && init[l] == rest[k];
        assert gs[l].to <= gs[|gs| - 1].from;
      }
    }
  }

  /** Dropping groups keeps the order of those that stay; exactly the kept ones stay. */
  lemma KeptIsFilter(lines: seq<string>, gs: seq<Group>)
    requires InRange(lines, gs) && Ordered(gs)
    ensures Ordered(Kept(lines, gs))
    ensures forall g | g in Kept(lines, gs) :: g in gs && IsKept(lines, g)
    ensures forall g | g in gs && IsKept(lines, g) :: g in Kept(lines, gs)
  {
    hide IsKept, Kept, Ordered;
    KeptOrdered(lines, gs);
    forall g: Group | g.from < g.to <= |lines|
      ensures g in Kept(lines, gs) <==> g in gs && IsKept(lines, g)
    {
      KeptMember(lines, gs, g);
    }
  }

  lemma KeptSnoc(lines: seq<string>, gs: seq<Group>, g: Group)
    requires InRange(lines, gs + [g]) && InRange(lines, gs)
    requires g.from < g.to <= |lines|
    ensures Kept(lines, gs + [g]) == if IsKept(lines, g) then Kept(lines, gs) + [g] else Kept(lines, gs)
  {
    assert (gs + [g])[..|gs|] == gs;
  }

  lemma BlocksForSnoc(content: string, gs: seq<Group>, g: Group)
    requires InRange(SplitLines(content), gs) && g.from < g.to <= |SplitLines(content)|
    ensures InRange(SplitLines(content), gs + [g])
    ensures BlocksFor(content, gs + [g]) == BlocksFor(content, gs) + [BlockOf(content, g)]
  {
  }

  // ---------------------------------------------------------------- the scanner

  predicate IsHeadingOnly(text: string) {
    IsHeading(Strip(text))
  }

  ghost function Flushed(blocks: seq<Block>, currentLines: seq<string>, headingPath: seq<string>,
                         charStart: nat, charEnd: nat): seq<Block>
  {
    var text := Strip(Join(currentLines));
    if text != "" && !IsHeading(text) then blocks + [Block(text, headingPath, charStart, charEnd)]
    else blocks
  }

  /** The nested `flush` of the scanner. */
  method Flush(blocks: seq<Block>, currentLines: seq<string>, headingPath: seq<string>,
               charStart: nat, charEnd: nat)
    returns (r: seq<Block>)
    ensures r == Flushed(blocks, currentLines, headingPath, charStart, charEnd)
  {
    var text := Strip(Join(currentLines));
    StripOfTrimmed(text);
    r := blocks;
    if text != "" && !IsHeadingOnly(text) {
      r := r + [Block(text, headingPath, charStart, charEnd)];
    }
  }

  /** What the scanner has gathered at line `i`: nothing, or an unfinished group from line
      `start` on. */
  ghost predicate Gathered(marks: seq<Mark>, lines: seq<string>, i: nat, start: nat, done: seq<Group>,
                           currentLines: seq<string>)
  {
    && start <= i <= |lines| == |marks|
    && InRange(lines, done)
    && currentLines == lines[start..i]
    && if start == i then Groups(marks, 0) == done + Groups(marks, i)
       else Groups(marks, 0) == done + [Group(start, GroupEnd(marks, i))] + Groups(marks, GroupEnd(marks, i))
  }

  /** The character position of a group boundary. */
  ghost function Boundary(content: string, i: nat): nat
    requires i <= |SplitLines(content)|
  {
    if i == |SplitLines(content)| then |content| else Pos(SplitLines(content), i)
  }

  /** Flushing what was gathered completes a group and yields its block. */
  lemma FlushCompletes(content: string, i: nat, start: nat, done: seq<Group>, currentLines: seq<string>,
                       blocks: seq<Block>, headingPath: seq<string>, charStart: nat)
    returns (r: seq<Group>)
    requires Gathered(MarksOf(SplitLines(content)), SplitLines(content), i, start, done, currentLines)
    requires blocks == BlocksFor(content, Kept(SplitLines(content), done))
    requires i < |SplitLines(content)| ==> !MarksOf(SplitLines(content))[i].Plain?
    requires start < i ==> charStart == Pos(SplitLines(content), start)
    requires start < i ==> headingPath == PathAt(MarksOf(SplitLines(content)), start + 1)
    ensures Gathered(MarksOf(SplitLines(content)), SplitLines(content), i, i, r, [])
    ensures Flushed(blocks, currentLines, headingPath, charStart, Boundary(content, i))
            == BlocksFor(content, Kept(SplitLines(content), r))
  {
    hide Strip, Join, IsHeading, IsSpace, PathAt, SplitLines, MarkOf;
    var lines := SplitLines(content);
    r := done;
    if start < i {
      var g := Group(start, i);
      r := done + [g];
      KeptSnoc(lines, done, g);
      BlocksForSnoc(content, Kept(lines, done), g);
    } else {
      FlushNothing(blocks, headingPath, charStart, Boundary(content, i));
    }
  }

  lemma FlushNothing(blocks: seq<Block>, headingPath: seq<string>, charStart: nat, charEnd: nat)
    ensures Flushed(blocks, [], headingPath, charStart, charEnd) == blocks
  {
    assert AllSpace("");
  }

  lemma GatherNone(marks: seq<Mark>, lines: seq<string>, i: nat, done: seq<Group>)
    requires i < |lines| && Gathered(marks, lines, i, i, done, []) && marks[i].Blank?
    ensures Gathered(marks, lines, i + 1, i + 1, done, [])
  {
    assert Groups(marks, i) == Groups(marks, i + 1);
  }

  lemma GatherFirst(marks: seq<Mark>, lines: seq<string>, i: nat, done: seq<Group>)
    requires i < |lines| && Gathered(marks, lines, i, i, done, []) && !marks[i].Blank?
    ensures Gathered(marks, lines, i + 1, i, done, [lines[i]])
  {
    var e := GroupEnd(marks, i + 1);
    assert Groups(marks, i) == [Group(i, e)] + Groups(marks, e);
    assert done + ([Group(i, e)] + Groups(marks, e)) == done + [Group(i, e)] + Groups(marks, e);
  }

  lemma GatherMore(marks: seq<Mark>, lines: seq<string>, i: nat, start: nat, done: seq<Group>,
                   currentLines: seq<string>)
    requires start < i < |lines| && Gathered(marks, lines, i, start, done, currentLines)
    requires marks[i].Plain?
    ensures Gathered(marks, lines, i + 1, start, done, currentLines + [lines[i]])
  {
    assert GroupEnd(marks, i) == GroupEnd(marks, i + 1);
    assert lines[start..i] + [lines[i]] == lines[start..i + 1];
  }

  /** The scanner's whole state before line `i`, against the specification. */
  ghost predicate Scanning(content: string, i: nat, start: nat, done: seq<Group>, currentLines: seq<string>,
                           currentStart: nat, currentPath: seq<string>, stack: Stack, position: nat, blocks: seq<Block>)
  {
    var lines := SplitLines(content);
    var marks := MarksOf(lines);
    && Gathered(marks, lines, i, start, done, currentLines)
    && position == Pos(lines, i) && stack == StackAt(marks, i)
    && (start < i ==> currentStart == Pos(lines, start) && currentPath == PathAt(marks, start + 1))
    && blocks == BlocksFor(content, Kept(lines, done))
  }

  lemma AfterHeading(content: string, i: nat, start: nat, done: seq<Group>, currentLines: seq<string>,
                     currentStart: nat, currentPath: seq<string>, stack: Stack, position: nat, blocks: seq<Block>)
    returns (r: seq<Group>)
    requires Scanning(content, i, start, done, currentLines, currentStart, currentPath, stack, position, blocks)
    requires i < |SplitLines(content)| && MarkOf(SplitLines(content)[i]).Heading?
    ensures var line := SplitLines(content)[i];
            var stack' := Shallower(stack, MarkOf(line).level) + [(MarkOf(line).level, MarkOf(line).title)];
            Scanning(content, i + 1, i, r, [line], position, Titles(stack'), stack', position + |line| + 1,
                     Flushed(blocks, currentLines, currentPath, currentStart, position))
  {
    hide Strip, Join, IsHeading, IsSpace, SplitLines, Flushed, MarkOf, StackAt, Shallower, Kept, BlocksFor, IsKept;
    var lines := SplitLines(content);
    var marks := MarksOf(lines);
    assert marks[i] == MarkOf(lines[i]);
    StackStep(marks, i);
    r := FlushCompletes(content, i, start, done, currentLines, blocks, currentPath, currentStart);
    GatherFirst(marks, lines, i, r);
  }

  lemma AfterBlank(content: string, i: nat, start: nat, done: seq<Group>, currentLines: seq<string>,
                   currentStart: nat, currentPath: seq<string>, stack: Stack, position: nat, blocks: seq<Block>,
                   anyStart: nat, anyPath: seq<string>)
    returns (r: seq<Group>)
    requires Scanning(content, i, start, done, currentLines, currentStart, currentPath, stack, position, blocks)
    requires i < |SplitLines(content)| && MarkOf(SplitLines(content)[i]).Blank?
    ensures Scanning(content, i + 1, i + 1, r, [], anyStart, anyPath, stack, position + |SplitLines(content)[i]| + 1,
                     Flushed(blocks, currentLines, currentPath, currentStart, position))
  {
    hide Strip, Join, IsHeading, IsSpace, SplitLines, Flushed, MarkOf, StackAt, Shallower, Kept, BlocksFor, IsKept;
    var lines := SplitLines(content);
    var marks := MarksOf(lines);
    assert marks[i] == MarkOf(lines[i]);
    StackStep(marks, i);
    r := FlushCompletes(content, i, start, done, currentLines, blocks, currentPath, currentStart);
    GatherNone(marks, lines, i, r);
  }

  lemma AfterPlain(content: string, i: nat, start: nat, done: seq<Group>, currentLines: seq<string>,
                   currentStart: nat, currentPath: seq<string>, stack: Stack, position: nat, blocks: seq<Block>)
    requires Scanning(content, i, start, done, currentLines, currentStart, currentPath, stack, position, blocks)
    requires i < |SplitLines(content)| && MarkOf(SplitLines(content)[i]).Plain?
    ensures currentLines == [] <==> start == i
    ensures var first := currentLines == [];
            Scanning(content, i + 1, start, done, currentLines + [SplitLines(content)[i]],
                     if first then position else currentStart, if first then Titles(stack) else currentPath,
                     stack, position + |SplitLines(content)[i]| + 1, blocks)
  {
    hide Strip, Join, IsHeading, IsSpace, SplitLines, Flushed, MarkOf, StackAt, Shallower, Kept, BlocksFor, IsKept;
    var lines := SplitLines(content);
    var marks := MarksOf(lines);
    assert marks[i] == MarkOf(lines[i]);
    StackStep(marks, i);
    if start == i {
      GatherFirst(marks, lines, i, done);
    } else {
      GatherMore(marks, lines, i, start, done, currentLines);
    }
  }

  lemma AtEnd(content: string, start: nat, done: seq<Group>, currentLines: seq<string>, currentStart: nat,
              currentPath: seq<string>, stack: Stack, position: nat, blocks: seq<Block>)
    requires Scanning(content, |SplitLines(content)|, start, done, currentLines, currentStart, currentPath, stack,
                      position, blocks)
    ensures Flushed(blocks, currentLines, currentPath, currentStart, |content|) == Blocks(content)
  {
    hide Strip, Join, IsHeading, IsSpace, SplitLines, Flushed, MarkOf, StackAt, Shallower, Kept, BlocksFor, IsKept;
    var n := |SplitLines(content)|;
    var r := FlushCompletes(content, n, start, done, currentLines, blocks, currentPath, currentStart);
    assert Groups(MarksOf(SplitLines(content)), n) == [];
    assert r + [] == r;
  }

  lemma AtStart(content: string)
    ensures Scanning(content, 0, 0, [], [], 0, [], [], 0, [])
  {
    assert SplitLines(content)[0..0] == [];
  }

  /** `markdown_blocks`: one pass over the lines yields the blocks of the specification. */
  method ScanBlocks(content: string) returns (blocks: seq<Block>)
    ensures blocks == Blocks(content)
  {
    hide *;
    AtStart(content);
    var lines := SplitLines(content);
    blocks := [];
    var stack: Stack := [];
    var position: nat := 0;
    var currentLines: seq<string> := [];
    var currentStart: nat := 0;
    var currentPath: seq<string> := [];
    ghost var start := 0;
    ghost var done: seq<Group> := [];
    var i := 0;
    while i < |lines|
      invariant 0 <= start <= i <= |lines|
      invariant Scanning(content, i, start, done, currentLines, currentStart, currentPath, stack, position, blocks)
    {
      var line := lines[i];
      var lineEnd := position + |line| + 1;
      match MarkOf(line) {
        case Heading(level, title) =>
          done := AfterHeading(content, i, start, done, currentLines, currentStart, currentPath, stack, position,
                               blocks);
          start := i;
          blocks := Flush(blocks, currentLines, currentPath, currentStart, position);
          stack := Shallower(stack, level) + [(level, title)];
          currentPath := Titles(stack);
          currentStart := position;
          currentLines := [line];
        case Blank =>
          done := AfterBlank(content, i, start, done, currentLines, currentStart, currentPath, stack, position, blocks,
                             lineEnd, Titles(stack));
          start := i + 1;
          blocks := Flush(blocks, currentLines, currentPath, currentStart, position);
          currentLines := [];
          currentStart := lineEnd;
          currentPath := Titles(stack);
        case Plain =>
          AfterPlain(content, i, start, done, currentLines, currentStart, currentPath, stack, position, blocks);
          if currentLines == [] {
            currentStart := position;
            currentPath := Titles(stack);
          }
          currentLines := currentLines + [line];
      }
      position := lineEnd;
      i := i + 1;
    }
    AtEnd(content, start, done, currentLines, currentStart, currentPath, stack, position, blocks);
    blocks := Flush(blocks, currentLines, currentPath, currentStart, |content|);
  }

  // ---------------------------------------------------------------- what the blocks are

  /** Block `k` is made from group `k`; its text is not empty, has no outer whitespace and
      is not heading-only. */
  lemma BlockOfGroup(content: string, k: nat)
    requires k < |Blocks(content)|
    ensures var b, g := Blocks(content)[k], KeptGroups(content)[k];
            && b == BlockOf(content, g)
            && Maximal(MarksOf(SplitLines(content)), g)
            && b.text != "" && Trimmed(b.text) && !IsHeadingOnly(b.text)
  {
    var lines := SplitLines(content);
    var g := KeptGroups(content)[k];
    GroupsPartition(MarksOf(lines), 0);
    KeptIsFilter(lines, Groups(MarksOf(lines), 0));
    assert g in Kept(lines, Groups(MarksOf(lines), 0));
    StripOfTrimmed(GroupText(lines, g));
  }

  lemma StripLength(s: string)
    ensures |Strip(s)| <= |s|
  {
  }

  /** Offsets: a block's text fits between its offsets, blocks follow one another, and the
      last one ends within the document, whatever line breaks the document uses. */
  lemma BlockOffsets(content: string, k: nat)
    requires k < |Blocks(content)|
    ensures var bs := Blocks(content);
            && bs[k].charStart + |bs[k].text| <= bs[k].charEnd <= |content|
            && (forall l | k < l < |bs| :: bs[k].charEnd <= bs[l].charStart)
  {
    hide Strip, Join, IsSpace, SplitLines, MarkOf, Groups, Kept, StackAt, Pos, IsKept, PathAt;
    var lines := SplitLines(content);
    var g := KeptGroups(content)[k];
    BlockOfGroup(content, k);
    PosBound(content);
    JoinLength(lines, g.from, g.to);
    StripLength(Join(lines[g.from..g.to]));
    PosMonotone(lines, g.to, |lines|);
    forall l | k < l < |Blocks(content)| ensures Blocks(content)[k].charEnd <= Blocks(content)[l].charStart {
      var h := KeptGroups(content)[l];
      BlockOfGroup(content, l);
      GroupsPartition(MarksOf(lines), 0);
      KeptIsFilter(lines, Groups(MarksOf(lines), 0));
      assert g.to <= h.from;
      PosMonotone(lines, g.to, h.from);
    }
  }

  /** With line feeds as the only breaks, a block's text is its slice of the document
      without outer whitespace. */
  lemma BlockIsSlice(content: string, k: nat)
    requires OnlyLineFeeds(content) && k < |Blocks(content)|
    ensures var b := Blocks(content)[k];
            b.charStart <= b.charEnd <= |content| && b.text == Strip(content[b.charStart..b.charEnd])
  {
    BlockOfGroup(content, k);
    SliceOfLines(content, KeptGroups(content)[k].from, KeptGroups(content)[k].to);
  }

  lemma {:induction false} StackInGroup(marks: seq<Mark>, g: Group, l: nat)
    requires Maximal(marks, g) && g.from <= l < g.to
    ensures StackAt(marks, l + 1) == StackAt(marks, g.from + 1)
    decreases l
  {
    if l > g.from {
      StackInGroup(marks, g, l - 1);
      StackStep(marks, l);
    }
  }

  /** A block's heading path is the chain of headings open at every one of its lines, told by
      the lines of the document that match the heading pattern. */
  lemma BlockPath(content: string, k: nat, l: nat)
    requires k < |Blocks(content)|
    requires KeptGroups(content)[k].from <= l < KeptGroups(content)[k].to
    ensures l < |SplitLines(content)|
    ensures StandsUnder(SplitLines(content), l + 1, Blocks(content)[k].headingPath)
  {
    hide Strip, Join, IsSpace, SplitLines, MarkOf, StackAt, Groups, Kept, StandsUnder;
    BlockOfGroup(content, k);
    StackInGroup(MarksOf(SplitLines(content)), KeptGroups(content)[k], l);
    PathStandsUnder(SplitLines(content), MarksOf(SplitLines(content)), l + 1);
  }

  lemma {:induction false} JoinOfSpace(lines: seq<string>, i: nat)
    requires i < |lines| && AllSpace(Join(lines))
    ensures AllSpace(lines[i])
  {
    if |lines| > 1 {
      var head, tail := lines[0] + "\n", Join(lines[1..]);
      assert forall k | 0 <= k < |lines[0]| :: lines[0][k] == (head + tail)[k];
      if i > 0 {
        assert forall k | 0 <= k < |tail| :: tail[k] == (head + tail)[|head| + k];
        JoinOfSpace(lines[1..], i - 1);
      }
    }
  }

  /** No text is lost but heading-only groups: every line that is not blank is in the group
      of some block, or in a maximal group whose text matches the heading pattern. */
  lemma OnlyHeadingsAreDropped(content: string, l: nat)
    requires l < |SplitLines(content)| && !MarkOf(SplitLines(content)[l]).Blank?
    ensures (exists k :: 0 <= k < |Blocks(content)| && KeptGroups(content)[k].from <= l < KeptGroups(content)[k].to)
            || (exists g: Group :: g.from <= l < g.to <= |SplitLines(content)|
                                   && Maximal(MarksOf(SplitLines(content)), g)
                                   && IsHeading(GroupText(SplitLines(content), g)))
  {
    hide Strip, Join, IsSpace, IsHeading, SplitLines, MarkOf, Groups, Kept, Ordered, StackAt;
    var lines := SplitLines(content);
    var gs := Groups(MarksOf(lines), 0);
    GroupsPartition(MarksOf(lines), 0);
    KeptIsFilter(lines, gs);
    assert Covered(gs, l);
    var k :| 0 <= k < |gs| && gs[k].from <= l < gs[k].to;
    var g := gs[k];
    assert Maximal(MarksOf(lines), g);
    if IsKept(lines, g) {
      assert g in KeptGroups(content);
    } else {
      GroupHasText(lines, g, l);
      assert IsHeading(GroupText(lines, g));
    }
  }

  lemma GroupHasText(lines: seq<string>, g: Group, l: nat)
    requires g.from <= l < g.to <= |lines| && !MarkOf(lines[l]).Blank?
    ensures GroupText(lines, g) != ""
  {
    hide MarkOf, Join, IsHeading;
    NotBlank(lines[l]);
    var part := lines[g.from..g.to];
    assert part[l - g.from] == lines[l];
    if AllSpace(Join(part)) {
      JoinOfSpace(part, l - g.from);
      assert false;
    }
  }

  lemma NotBlank(line: string)
    requires !MarkOf(line).Blank?
    ensures !AllSpace(line)
  {
  }

  /** A document whose only text is lost: the joined lines look like one heading. */
  lemma LostTextExample()
    ensures SplitLines("#\ntext") == ["#", "text"] && MarkOf("text") == Plain && Blocks("#\ntext") == []
  {
    hide IsHeading, Groups, SplitLines, GroupText, MarkOf, MarksOf;
    var gs := [Group(0, 2)];
    HashLines();
    HashMarks();
    PlainGroups();
    HashText();
    HashIsHeading();
    KeptSnoc(["#", "text"], [], Group(0, 2));
    assert [] + gs == gs;
  }

  lemma PlainGroups()
    requires MarkOf("#") == Plain && MarkOf("text") == Plain
    ensures Groups(MarksOf(["#", "text"]), 0) == [Group(0, 2)]
  {
    hide MarkOf;
    var marks := MarksOf(["#", "text"]);
    assert marks == [Plain, Plain];
    hide MarksOf;
    assert GroupEnd(marks, 1) == 2;
    assert Groups(marks, 2) == [];
  }

  lemma HashText()
    ensures GroupText(["#", "text"], Group(0, 2)) == "#\ntext"
  {
    var lines := ["#", "text"];
    assert lines[0..2] == lines && lines[1..] == ["text"];
    assert Join(["text"]) == "text";
    assert Join(lines) == "#" + "\n" + "text" == "#\ntext";
    StripOfTrimmed("#\ntext");
  }

  lemma HashLines()
    ensures SplitLines("#\ntext") == ["#", "text"]
  {
    var s := "#\ntext";
    assert s[1..] == "\ntext";
    assert FirstBreak("\ntext") == 0;
    assert FirstBreak(s) == 1 && s[..1] == "#" && s[2..] == "text";
    assert FirstBreak("text") == 4;
  }

  lemma HashMarks()
    ensures MarkOf("#") == Plain && MarkOf("text") == Plain
  {
    StripOfTrimmed("#");
    StripOfTrimmed("text");
    assert Hashes("#") == 1 by { assert "#"[1..] == ""; }
    assert Hashes("text") == 0;
  }

  lemma HashIsHeading()
    ensures IsHeading("#\ntext")
  {
    var s := "#\ntext";
    assert s[1..] == "\ntext" && "\ntext"[1..] == "text";
    assert Hashes("\ntext") == 0 && Hashes(s) == 1;
    assert Lead("text") == 0 && Lead("\ntext") == 1;
    assert s[2..] == "text";
  }

  /** Text under two headings, one inside the other, has both on its path. */
  lemma NestedHeadingsExample()
    ensures Blocks("# A\n## B\ntext") == [Block("## B\ntext", ["A", "B"], 4, 13)]
  {
    hide IsHeading, Groups, SplitLines, GroupText, MarkOf, MarksOf, PathAt, Pos;
    var content, lines := "# A\n## B\ntext", ["# A", "## B", "text"];
    var first, second := Group(0, 1), Group(1, 3);
    NestedLines();
    NestedGroups();
    NestedTexts();
    assert [first] + [second] == [first, second] && [] + [first] == [first];
    KeptSnoc(lines, [], first);
    KeptSnoc(lines, [first], second);
    assert Kept(lines, [first, second]) == [] + [second] == [second];
    NestedPath();
    SecondLineStarts(lines);
    assert Blocks(content) == [Block("## B\ntext", ["A", "B"], 4, 13)];
  }

  lemma SecondLineStarts(lines: seq<string>)
    requires |lines| == 3 && |lines[0]| == 3
    ensures Pos(lines, 1) == 4
  {
    assert Pos(lines, 0) == 0;
  }

  lemma NoBreaks(line: string)
    requires forall i | 0 <= i < |line| :: !IsLineBreak(line[i])
    ensures FirstBreak(line) == |line|
  {
  }

  lemma NestedLines()
    ensures SplitLines("# A\n## B\ntext") == ["# A", "## B", "text"]
  {
    hide SplitLines;
    CutLine("# A", "## B\ntext");
    CutLine("## B", "text");
    assert "# A\n## B\ntext" == "# A" + "\n" + "## B\ntext" && "## B\ntext" == "## B" + "\n" + "text";
    LastLine("text");
  }

  lemma CutLine(line: string, rest: string)
    requires forall i | 0 <= i < |line| :: !IsLineBreak(line[i])
    ensures SplitLines(line + "\n" + rest) == [line] + SplitLines(rest)
  {
    hide FirstBreak;
    NoBreaks(line);
    BrokenAt(line, "\n", rest);
    assert (line + "\n" + rest)[|line|] == '\n';
  }

  lemma LastLine(line: string)
    requires line != "" && forall i | 0 <= i < |line| :: !IsLineBreak(line[i])
    ensures SplitLines(line) == [line]
  {
    NoBreaks(line);
  }

  lemma NestedMarks()
    ensures MarksOf(["# A", "## B", "text"]) == [Heading(1, "A"), Heading(2, "B"), Plain]
  {
    hide MarkOf;
    assert "# A"[2..] == "A" && "## B"[3..] == "B";
    HeadingLine("# A", 1, "A");
    HeadingLine("## B", 2, "B");
    HashMarks();
  }

  /** Hash marks, a space and a title. */
  lemma HeadingLine(line: string, level: nat, title: string)
    requires 1 <= level <= 6 && |line| == level + 1 + |title| && title != "" && Trimmed(title) && '\n' !in title
    requires (forall i | 0 <= i < level :: line[i] == '#') && line[level] == ' ' && line[level + 1..] == title
    ensures MarkOf(line) == Heading(level, title)
  {
    hide MarkOf, Strip;
    assert line[0] == '#' && line[|line| - 1] == title[|title| - 1];
    StripOfTrimmed(line);
    StripOfTrimmed(title);
    assert forall i | level + 1 <= i < |line| :: line[i] == line[level + 1..][i - level - 1];
    assert Matches(line, level, level + 1, |line|) && line[level + 1..|line|] == title;
    MarkDecides(line);
    assert HeadsLine(line, level, title);
  }

  lemma NestedGroups()
    ensures Groups(MarksOf(["# A", "## B", "text"]), 0) == [Group(0, 1), Group(1, 3)]
  {
    NestedMarks();
    hide MarksOf;
    var marks := MarksOf(["# A", "## B", "text"]);
    assert GroupEnd(marks, 1) == 1 && GroupEnd(marks, 2) == 3;
    assert Groups(marks, 3) == [];
    assert Groups(marks, 1) == [Group(1, 3)] + [];
  }

  lemma NestedTexts()
    ensures var lines := ["# A", "## B", "text"];
            && GroupText(lines, Group(0, 1)) == "# A" && IsHeading("# A")
            && GroupText(lines, Group(1, 3)) == "## B\ntext" && !IsHeading("## B\ntext")
  {
    hide IsHeading, Join, Strip, MarkOf;
    var lines := ["# A", "## B", "text"];
    assert lines[0..1] == ["# A"] && lines[1..3] == ["## B", "text"];
    JoinOneOrTwo("# A", "## B", "text");
    assert "## B" + "\n" + "text" == "## B\ntext";
    StripOfTrimmed("# A");
    StripOfTrimmed("## B\ntext");
    assert "# A"[2..] == "A";
    HeadingLine("# A", 1, "A");
    MarkedIsHeading("# A");
    NoHeadingAcross("## B\ntext");
  }

  lemma JoinOneOrTwo(a: string, b: string, c: string)
    ensures Join([a]) == a && Join([b, c]) == b + "\n" + c
  {
    assert [b, c][1..] == [c];
  }

  lemma MarkedIsHeading(line: string)
    requires MarkOf(line).Heading?
    ensures IsHeading(Strip(line))
  {
  }

  lemma NoHeadingAcross(t: string)
    requires |t| == 9 && t[0] == '#' && t[2] == ' ' && t[3] == 'B' && t[4] == '\n' && t[8] == 't'
    ensures !IsHeading(t)
  {
    hide IsHeading, Matches;
    HeadingDecides(t);
    forall k: nat, j: nat, e: nat ensures !Matches(t, k, j, e) {
      NoMatchAcross(t, k, j, e);
    }
  }

  lemma NoMatchAcross(t: string, k: nat, j: nat, e: nat)
    requires |t| == 9 && t[0] == '#' && t[2] == ' ' && t[3] == 'B' && t[4] == '\n' && t[8] == 't'
    ensures !Matches(t, k, j, e)
  {
  }

  lemma NestedPath()
    ensures PathAt(MarksOf(["# A", "## B", "text"]), 2) == ["A", "B"]
  {
    NestedMarks();
    hide MarksOf;
    var marks := MarksOf(["# A", "## B", "text"]);
    TwoHeadings(marks, "A", "B");
  }

  lemma TwoHeadings(marks: seq<Mark>, a: string, b: string)
    requires |marks| >= 2 && marks[0] == Heading(1, a) && marks[1] == Heading(2, b)
    ensures PathAt(marks, 2) == [a, b]
  {
    hide StackAt;
    var none: Stack := [];
    NothingOpen(marks);
    StackStep(marks, 0);
    StackStep(marks, 1);
    ShallowerSnoc(none, (1, a), 2);
    assert none + [(1, a)] == [(1, a)];
  }

  lemma NothingOpen(marks: seq<Mark>)
    ensures StackAt(marks, 0) == []
  {
  }
}
