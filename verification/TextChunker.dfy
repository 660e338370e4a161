/** The packer that turns blocks into chunks of bounded size, splitting a block that is too
    long into overlapping windows. */
module TextChunker {
  import opened Options
  import opened Text
  import opened Headings
  import opened MarkdownBlocks

  /** `TextChunker(max_chars, overlap_chars)`; other values are refused by its constructor. */
  datatype Config = Config(maxChars: int, overlapChars: int) {
    ghost predicate Valid() {
      maxChars > 0 && 0 <= overlapChars < maxChars
    }
    /** How far one window lies after the one before it. */
    ghost function Stride(): int {
      maxChars - overlapChars
    }
  }

  datatype Draft = Draft(content: string, headingPath: seq<string>, charStart: nat, charEnd: nat)

  datatype Candidate = Candidate(chunkIndex: nat, content: string, headingPath: seq<string>,
                                 sectionTitle: Option<string>, charStart: nat, charEnd: nat)

  /** Characters `from..to` of the text of block `block`. */
  datatype Piece = Piece(block: nat, from: nat, to: nat)

  // ---------------------------------------------------------------- what a packing is

  ghost predicate GoodBlocks(blocks: seq<Block>, length: nat) {
    && (forall k | 0 <= k < |blocks| ::
          && blocks[k].text != "" && Trimmed(blocks[k].text)
          && blocks[k].charStart + |blocks[k].text| <= blocks[k].charEnd <= length)
    && (forall k, l | 0 <= k < l < |blocks| :: blocks[k].charEnd <= blocks[l].charStart)
  }

  ghost predicate ValidPiece(blocks: seq<Block>, p: Piece) {
    p.block < |blocks| && p.from < p.to <= |blocks[p.block].text|
  }

  ghost function PieceText(blocks: seq<Block>, p: Piece): string
    requires ValidPiece(blocks, p)
  {
    blocks[p.block].text[p.from..p.to]
  }

  /** The texts of the pieces with a blank line between each two. */
  ghost function JoinPieces(blocks: seq<Block>, ps: seq<Piece>): string
    requires ps != [] && forall k | 0 <= k < |ps| :: ValidPiece(blocks, ps[k])
  {
    if |ps| == 1 then PieceText(blocks, ps[0])
    else JoinPieces(blocks, ps[..|ps| - 1]) + "\n\n" + PieceText(blocks, ps[|ps| - 1])
  }

  /** A chunk carries its pieces: its content is those pieces and nothing else, they come
      from consecutive blocks with the chunk's heading path, and only the first of them may
      start inside its block. */
  ghost predicate Carries(blocks: seq<Block>, cfg: Config, d: Draft, ps: seq<Piece>) {
    && ps != []
    && (forall k | 0 <= k < |ps| :: ValidPiece(blocks, ps[k]))
    && (forall k | 0 <= k < |ps| :: ps[k].block == ps[0].block + k)
    && (forall k | 0 <= k < |ps| :: blocks[ps[k].block].headingPath == d.headingPath)
    && (forall k | 0 < k < |ps| :: ps[k].from == 0 && ps[k].to == |blocks[ps[k].block].text|)
    && (|ps| > 1 ==> ps[0].to == |blocks[ps[0].block].text|)
    && d.content == JoinPieces(blocks, ps)
    && d.content != "" && Trimmed(d.content) && |d.content| <= cfg.maxChars
    && d.charStart <= blocks[ps[0].block].charStart + ps[0].from
  }

  /** Characters `start..to` are a full window of `maxChars` without its trailing
      whitespace, and `from` is the first character after one stride that is not
      whitespace. */
  ghost predicate Window(text: string, cfg: Config, start: nat, to: nat, from: nat) {
    && cfg.Valid() && start + cfg.maxChars < |text|
    && start < to <= start + cfg.maxChars && !IsSpace(text[to - 1])
    && (forall x | to <= x < start + cfg.maxChars :: IsSpace(text[x]))
    && start + cfg.Stride() <= from < |text| && !IsSpace(text[from])
    && (forall x | start + cfg.Stride() <= x < from :: IsSpace(text[x]))
  }

  /** Chunk `d` ended with a window of a block and the next chunk goes on in that block. */
  ghost predicate SplitBreak(blocks: seq<Block>, cfg: Config, d: Draft, p: Piece, block: nat, from: nat, charStart: nat)
    requires p.block < |blocks| && block < |blocks|
  {
    && block == p.block
    && Window(blocks[block].text, cfg, p.from, p.to, from)
    && d.charEnd == d.charStart + |d.content| && charStart == d.charStart + cfg.Stride()
  }

  /** Chunk `d` ended with the end of a block, and the next block starts a new chunk because
      its heading path differs or it did not fit. */
  ghost predicate BlockBreak(blocks: seq<Block>, cfg: Config, d: Draft, p: Piece, block: nat, from: nat, charStart: nat)
    requires p.block < |blocks| && block < |blocks|
  {
    && block == p.block + 1 && from == 0 && p.to == |blocks[p.block].text|
    && (blocks[block].headingPath != d.headingPath || |d.content| + 2 + |blocks[block].text| > cfg.maxChars)
    && d.charEnd == charStart == blocks[block].charStart
  }

  ghost function Last<T>(s: seq<T>): T
    requires s != []
  {
    s[|s| - 1]
  }

  /** Where the chunk after `ds` has to start. */
  ghost predicate Await(blocks: seq<Block>, cfg: Config, ds: seq<Draft>, ps: seq<seq<Piece>>,
                        block: nat, from: nat, charStart: nat)
  {
    && |ds| == |ps| && block < |blocks|
    && if ds == [] then block == 0 && from == 0 && charStart == blocks[0].charStart
       else Last(ps) != [] && Last(Last(ps)).block < |blocks|
            && ( || SplitBreak(blocks, cfg, Last(ds), Last(Last(ps)), block, from, charStart)
                 || BlockBreak(blocks, cfg, Last(ds), Last(Last(ps)), block, from, charStart))
  }

  /** The chunks so far carry the pieces so far, and each chunk starts where the one before
      it requires. */
  ghost predicate Packing(blocks: seq<Block>, cfg: Config, ds: seq<Draft>, ps: seq<seq<Piece>>) {
    && |ds| == |ps|
    && (forall k | 0 <= k < |ps| :: ps[k] != [])
    && (forall k | 0 <= k < |ds| :: Carries(blocks, cfg, ds[k], ps[k]))
    && (forall k | 0 <= k < |ds| ::
          Await(blocks, cfg, ds[..k], ps[..k], ps[k][0].block, ps[k][0].from, ds[k].charStart))
  }

  /** A packing of the whole document, of `length` characters: the last chunk ends with the
      end of the last block. */
  ghost predicate Complete(blocks: seq<Block>, cfg: Config, ds: seq<Draft>, ps: seq<seq<Piece>>, length: nat) {
    && Packing(blocks, cfg, ds, ps)
    && if blocks == [] then ds == []
       else
         && ds != [] && Last(ds).charEnd == length
         && Last(ps) != [] && Last(Last(ps)).block == |blocks| - 1
         && Last(Last(ps)).to == |blocks[|blocks| - 1].text|
  }

  // ---------------------------------------------------------------- steps of the packer

  lemma Push(blocks: seq<Block>, cfg: Config, ds: seq<Draft>, ps: seq<seq<Piece>>, d: Draft, p: seq<Piece>)
    requires Packing(blocks, cfg, ds, ps) && Carries(blocks, cfg, d, p)
    requires Await(blocks, cfg, ds, ps, p[0].block, p[0].from, d.charStart)
    ensures Packing(blocks, cfg, ds + [d], ps + [p])
  {
    hide Await;
    assert p != [];
    hide Carries;
    var es: seq<Draft>, qs: seq<seq<Piece>> := ds + [d], ps + [p];
    forall k | 0 <= k < |es|
      ensures Await(blocks, cfg, es[..k], qs[..k], qs[k][0].block, qs[k][0].from, es[k].charStart)
    {
      if k < |ds| {
        assert es[..k] == ds[..k] && qs[..k] == ps[..k];
      } else {
        assert es[..k] == ds && qs[..k] == ps;
      }
    }
  }

  lemma WholeBlock(blocks: seq<Block>, cfg: Config, length: nat, i: nat)
    requires GoodBlocks(blocks, length) && i < |blocks| && |blocks[i].text| <= cfg.maxChars
    ensures Carries(blocks, cfg, Draft(blocks[i].text, blocks[i].headingPath, blocks[i].charStart, 0),
                    [Piece(i, 0, |blocks[i].text|)])
  {
  }

  lemma TrimmedJoin(a: string, b: string)
    requires a != "" && b != "" && Trimmed(a) && Trimmed(b)
    ensures Trimmed(a + "\n\n" + b)
  {
  }

  lemma Extend(blocks: seq<Block>, cfg: Config, length: nat, d: Draft, p: seq<Piece>, i: nat)
    requires GoodBlocks(blocks, length) && i < |blocks| && Carries(blocks, cfg, d, p)
    requires Last(p).block == i - 1 && Last(p).to == |blocks[i - 1].text|
    requires blocks[i].headingPath == d.headingPath
    requires |d.content + "\n\n" + blocks[i].text| <= cfg.maxChars
    ensures Carries(blocks, cfg, d.(content := d.content + "\n\n" + blocks[i].text),
                    p + [Piece(i, 0, |blocks[i].text|)])
  {
    hide Trimmed, IsSpace;
    var q := p + [Piece(i, 0, |blocks[i].text|)];
    assert q[..|p|] == p;
    TrimmedJoin(d.content, blocks[i].text);
  }

  /** The first `m` characters of trimmed text, stripped. */
  lemma StripHead(t: string, m: nat) returns (e: nat)
    requires t != "" && Trimmed(t) && 0 < m < |t|
    ensures 0 < e <= m && Strip(t[..m]) == t[..e] && !IsSpace(t[e - 1])
    ensures forall x | e <= x < m :: IsSpace(t[x])
  {
    var s := t[..m];
    assert s[0] == t[0];
    LeadBeforeKeep(s);
    e := Keep(s);
    assert Lead(s) == 0 && e > 0;
    assert s[0..e] == t[..e] && s[e - 1] == t[e - 1];
    assert forall x | 0 <= x < m :: s[x] == t[x];
  }

  /** What is left of trimmed text after `n` characters, stripped. */
  lemma StripTail(t: string, n: nat) returns (f: nat)
    requires Trimmed(t) && n < |t|
    ensures n <= f < |t| && Strip(t[n..]) == t[f..] && !IsSpace(t[f])
    ensures forall x | n <= x < f :: IsSpace(t[x])
  {
    var s := t[n..];
    assert s[|s| - 1] == t[|t| - 1];
    LeadBeforeKeep(s);
    assert Keep(s) == |s|;
    f := n + Lead(s);
    assert s[Lead(s)..|s|] == t[f..] && s[Lead(s)] == t[f];
    assert forall x | n <= x < |t| :: s[x - n] == t[x];
  }

  lemma SubSlice(t: string, off: nat, a: nat, b: nat)
    requires a <= b <= |t| - off
    ensures t[off..][a..b] == t[off + a..off + b]
    ensures b == |t| - off ==> t[off..][a..] == t[off + a..]
    ensures a == 0 ==> t[off..][..b] == t[off..off + b]
  {
  }

  /** The text side of one pass of the splitting loop, at offset `off` of a block. */
  lemma SplitText(t: string, cfg: Config, off: nat) returns (to: nat, from: nat)
    requires cfg.Valid() && off + cfg.maxChars < |t| && Trimmed(t[off..])
    ensures off < to <= off + cfg.maxChars && Window(t, cfg, off, to, from)
    ensures off + cfg.Stride() <= from < |t| && Trimmed(t[from..])
    ensures Strip(t[off..][..cfg.maxChars]) == t[off..to]
    ensures Strip(t[off..][cfg.Stride()..]) == t[from..]
  {
    hide Strip, IsSpace;
    var current := t[off..];
    var e := StripHead(current, cfg.maxChars);
    var f := StripTail(current, cfg.Stride());
    to, from := off + e, off + f;
    SubSlice(t, off, 0, e);
    SubSlice(t, off, f, |current|);
    assert forall x | off <= x < |t| :: t[x] == current[x - off];
  }

  /** One piece of block `i` is a chunk by itself. */
  lemma OnePiece(blocks: seq<Block>, cfg: Config, d: Draft, p: Piece)
    requires ValidPiece(blocks, p) && d.content == PieceText(blocks, p) && Trimmed(d.content)
    requires |d.content| <= cfg.maxChars && d.headingPath == blocks[p.block].headingPath
    requires d.charStart <= blocks[p.block].charStart + p.from
    ensures Carries(blocks, cfg, d, [p])
  {
  }

  // ---------------------------------------------------------------- the packer's state

  /** Before block `i`: the finished chunks, and the one still open, if any. */
  ghost predicate Ready(blocks: seq<Block>, cfg: Config, ds: seq<Draft>, ps: seq<seq<Piece>>, i: nat,
                        d: Draft, open: seq<Piece>)
  {
    && i <= |blocks| && Packing(blocks, cfg, ds, ps)
    && if i == 0 then d.content == "" && ds == []
       else
         && Carries(blocks, cfg, d, open)
         && Last(open).block == i - 1 && Last(open).to == |blocks[i - 1].text|
         && Await(blocks, cfg, ds, ps, open[0].block, open[0].from, d.charStart)
  }

  /** Before block `i`, with no chunk open. */
  ghost predicate Closed(blocks: seq<Block>, cfg: Config, ds: seq<Draft>, ps: seq<seq<Piece>>, i: nat) {
    i < |blocks| && Packing(blocks, cfg, ds, ps) && Await(blocks, cfg, ds, ps, i, 0, blocks[i].charStart)
  }

  lemma NothingYet(blocks: seq<Block>, cfg: Config, d: Draft)
    requires d.content == ""
    ensures Ready(blocks, cfg, [], [], 0, d, [])
  {
  }

  lemma FirstBlock(blocks: seq<Block>, cfg: Config, ds: seq<Draft>, ps: seq<seq<Piece>>, d: Draft, open: seq<Piece>)
    requires Ready(blocks, cfg, ds, ps, 0, d, open) && blocks != []
    ensures Closed(blocks, cfg, ds, ps, 0)
  {
  }

  lemma NoBlocks(blocks: seq<Block>, cfg: Config, length: nat, ds: seq<Draft>, ps: seq<seq<Piece>>, d: Draft,
                 open: seq<Piece>)
    requires blocks == [] && Ready(blocks, cfg, ds, ps, 0, d, open)
    ensures Complete(blocks, cfg, ds, ps, length)
  {
  }

  /** In the splitting loop, at offset `off` of block `i`. */
  ghost predicate Splitting(blocks: seq<Block>, cfg: Config, ds: seq<Draft>, ps: seq<seq<Piece>>, i: nat, off: nat,
                            current: string, charStart: nat)
  {
    && i < |blocks| && off < |blocks[i].text|
    && current == blocks[i].text[off..] && Trimmed(current)
    && charStart <= blocks[i].charStart + off
    && Packing(blocks, cfg, ds, ps) && Await(blocks, cfg, ds, ps, i, off, charStart)
  }

  /** The open chunk is closed because the next block cannot join it. */
  lemma Close(blocks: seq<Block>, cfg: Config, ds: seq<Draft>, ps: seq<seq<Piece>>, i: nat, d: Draft,
              open: seq<Piece>)
    requires Ready(blocks, cfg, ds, ps, i, d.(charEnd := 0), open) && 0 < i < |blocks|
    requires blocks[i].headingPath != d.headingPath || |d.content| + 2 + |blocks[i].text| > cfg.maxChars
    requires d.charEnd == blocks[i].charStart
    ensures Closed(blocks, cfg, ds + [d], ps + [open], i)
  {
    hide Packing, JoinPieces, Trimmed;
    Push(blocks, cfg, ds, ps, d, open);
    AwaitAfter(blocks, cfg, ds, ps, d, open, i, 0, blocks[i].charStart);
  }

  lemma AwaitAfter(blocks: seq<Block>, cfg: Config, ds: seq<Draft>, ps: seq<seq<Piece>>, d: Draft, open: seq<Piece>,
                   block: nat, from: nat, charStart: nat)
    requires |ds| == |ps| && block < |blocks| && open != [] && Last(open).block < |blocks|
    requires || SplitBreak(blocks, cfg, d, Last(open), block, from, charStart)
             || BlockBreak(blocks, cfg, d, Last(open), block, from, charStart)
    ensures Await(blocks, cfg, ds + [d], ps + [open], block, from, charStart)
  {
    assert Last(ds + [d]) == d && Last(ps + [open]) == open;
  }

  lemma OpenWhole(blocks: seq<Block>, cfg: Config, length: nat, ds: seq<Draft>, ps: seq<seq<Piece>>, i: nat)
    requires GoodBlocks(blocks, length) && Closed(blocks, cfg, ds, ps, i) && |blocks[i].text| <= cfg.maxChars
    ensures Ready(blocks, cfg, ds, ps, i + 1, Draft(blocks[i].text, blocks[i].headingPath, blocks[i].charStart, 0),
                  [Piece(i, 0, |blocks[i].text|)])
    ensures blocks[i].text != ""
  {
    WholeBlock(blocks, cfg, length, i);
  }

  lemma OpenMore(blocks: seq<Block>, cfg: Config, length: nat, ds: seq<Draft>, ps: seq<seq<Piece>>, i: nat, d: Draft,
                 open: seq<Piece>)
    requires GoodBlocks(blocks, length) && Ready(blocks, cfg, ds, ps, i, d, open) && 0 < i < |blocks|
    requires blocks[i].headingPath == d.headingPath
    requires |d.content + "\n\n" + blocks[i].text| <= cfg.maxChars
    ensures Ready(blocks, cfg, ds, ps, i + 1, d.(content := d.content + "\n\n" + blocks[i].text),
                  open + [Piece(i, 0, |blocks[i].text|)])
  {
    Extend(blocks, cfg, length, d, open, i);
  }

  lemma OpenRest(blocks: seq<Block>, cfg: Config, ds: seq<Draft>, ps: seq<seq<Piece>>, i: nat, off: nat,
                 current: string, charStart: nat)
    requires Splitting(blocks, cfg, ds, ps, i, off, current, charStart) && |current| <= cfg.maxChars
    ensures Ready(blocks, cfg, ds, ps, i + 1, Draft(current, blocks[i].headingPath, charStart, 0),
                  [Piece(i, off, |blocks[i].text|)])
    ensures current != ""
  {
    OnePiece(blocks, cfg, Draft(current, blocks[i].headingPath, charStart, 0), Piece(i, off, |blocks[i].text|));
  }

  lemma StartSplit(blocks: seq<Block>, cfg: Config, length: nat, ds: seq<Draft>, ps: seq<seq<Piece>>, i: nat)
    requires GoodBlocks(blocks, length) && Closed(blocks, cfg, ds, ps, i)
    ensures Splitting(blocks, cfg, ds, ps, i, 0, blocks[i].text, blocks[i].charStart)
  {
  }

  lemma SplitStep(blocks: seq<Block>, cfg: Config, ds: seq<Draft>, ps: seq<seq<Piece>>, i: nat, off: nat,
                  current: string, charStart: nat, d: Draft)
    returns (p: Piece, from: nat)
    requires cfg.Valid() && Splitting(blocks, cfg, ds, ps, i, off, current, charStart)
    requires |current| > cfg.maxChars
    requires d.content == Strip(current[..cfg.maxChars]) && d.headingPath == blocks[i].headingPath
    requires d.charStart == charStart && d.charEnd == charStart + |d.content|
    ensures Splitting(blocks, cfg, ds + [d], ps + [[p]], i, from, Strip(current[cfg.Stride()..]),
                      charStart + cfg.Stride())
    ensures |Strip(current[cfg.Stride()..])| + cfg.Stride() <= |current|
  {
    var to;
    to, from := SplitText(blocks[i].text, cfg, off);
    p := Piece(i, off, to);
    OnePiece(blocks, cfg, d, p);
    Push(blocks, cfg, ds, ps, d, [p]);
    AwaitAfter(blocks, cfg, ds, ps, d, [p], i, from, charStart + cfg.Stride());
  }

  lemma Finish(blocks: seq<Block>, cfg: Config, ds: seq<Draft>, ps: seq<seq<Piece>>, d: Draft, open: seq<Piece>)
    requires Ready(blocks, cfg, ds, ps, |blocks|, d.(charEnd := 0), open) && blocks != []
    ensures Complete(blocks, cfg, ds + [d], ps + [open], d.charEnd)
  {
    Push(blocks, cfg, ds, ps, d, open);
  }

  // ---------------------------------------------------------------- the packer

  /** The inner loop of `chunk_document`: block `i` is cut into windows until what is left
      of it fits. */
  method Split(blocks: seq<Block>, cfg: Config, before: seq<Draft>, ghost piecesBefore: seq<seq<Piece>>, i: nat)
    returns (drafts: seq<Draft>, ghost pieces: seq<seq<Piece>>, current: string, currentStart: nat, ghost off: nat)
    requires cfg.Valid() && i < |blocks|
    requires Splitting(blocks, cfg, before, piecesBefore, i, 0, blocks[i].text, blocks[i].charStart)
    ensures Splitting(blocks, cfg, drafts, pieces, i, off, current, currentStart) && |current| <= cfg.maxChars
  {
    hide Strip, Trimmed, Await, Packing, Splitting;
    var block := blocks[i];
    drafts, pieces, current, currentStart, off := before, piecesBefore, block.text, block.charStart, 0;
    while |current| > cfg.maxChars
      invariant Splitting(blocks, cfg, drafts, pieces, i, off, current, currentStart)
      decreases |current|
    {
      var content := Strip(current[..cfg.maxChars]);
      var draft := Draft(content, block.headingPath, currentStart, currentStart + |content|);
      ghost var p, from := SplitStep(blocks, cfg, drafts, pieces, i, off, current, currentStart, draft);
      drafts := drafts + [draft];
      pieces := pieces + [[p]];
      current := Strip(current[cfg.maxChars - cfg.overlapChars..]);
      currentStart := Max(currentStart + cfg.maxChars - cfg.overlapChars, currentStart);
      off := from;
    }
  }

  /** The loop of `chunk_document` over the blocks of a document of `length` characters. */
  method Pack(blocks: seq<Block>, cfg: Config, length: nat)
    returns (drafts: seq<Draft>, ghost pieces: seq<seq<Piece>>)
    requires cfg.Valid() && GoodBlocks(blocks, length)
    ensures Complete(blocks, cfg, drafts, pieces, length)
    ensures WellShaped(drafts, cfg, length)
  {
    hide Strip, Trimmed, Await, Packing, Splitting, Closed, Ready, GoodBlocks;
    drafts, pieces := [], [];
    NothingYet(blocks, cfg, Draft("", [], 0, 0));
    var current := "";
    var currentPath: seq<string> := [];
    var currentStart: nat := 0;
    var lastPath: seq<string> := [];
    ghost var open: seq<Piece> := [];
    var i := 0;
    while i < |blocks|
      invariant 0 <= i <= |blocks| && (i > 0 ==> currentPath == lastPath) && (i > 0 <==> current != "")
      invariant Ready(blocks, cfg, drafts, pieces, i, Draft(current, currentPath, currentStart, 0), open)
    {
      var block := blocks[i];
      if i == 0 { FirstBlock(blocks, cfg, drafts, pieces, Draft(current, currentPath, currentStart, 0), open); }
      if current != "" && block.headingPath != currentPath {
        var draft := Draft(current, currentPath, currentStart, block.charStart);
        Close(blocks, cfg, drafts, pieces, i, draft, open);
        drafts := drafts + [draft];
        pieces := pieces + [open];
        current := "";
        currentStart := block.charStart;
        currentPath := block.headingPath;
      }

      var proposed := if current == "" then block.text else current + "\n\n" + block.text;
      if |proposed| <= cfg.maxChars {
        if current == "" {
          currentStart := block.charStart;
          currentPath := block.headingPath;
          OpenWhole(blocks, cfg, length, drafts, pieces, i);
          open := [Piece(i, 0, |block.text|)];
        } else {
          OpenMore(blocks, cfg, length, drafts, pieces, i, Draft(current, currentPath, currentStart, 0), open);
          open := open + [Piece(i, 0, |block.text|)];
        }
        current := proposed;
        lastPath := block.headingPath;
      } else {
        if current != "" {
          var draft := Draft(current, currentPath, currentStart, block.charStart);
          Close(blocks, cfg, drafts, pieces, i, draft, open);
          drafts := drafts + [draft];
          pieces := pieces + [open];
        }
        current := block.text;
        currentStart := block.charStart;
        currentPath := block.headingPath;
        lastPath := block.headingPath;

        StartSplit(blocks, cfg, length, drafts, pieces, i);
        ghost var off;
        drafts, pieces, current, currentStart, off := Split(blocks, cfg, drafts, pieces, i);
        OpenRest(blocks, cfg, drafts, pieces, i, off, current, currentStart);
        open := [Piece(i, off, |block.text|)];
      }
      i := i + 1;
    }
    if current != "" {
      var path := if currentPath != [] then currentPath else lastPath;
      var draft := Draft(current, path, currentStart, length);
      Finish(blocks, cfg, drafts, pieces, draft, open);
      drafts := drafts + [draft];
      pieces := pieces + [open];
    } else {
      NoBlocks(blocks, cfg, length, drafts, pieces, Draft(current, currentPath, currentStart, 0), open);
    }
    hide Complete, WellShaped;
    CompleteIsWellShaped(blocks, cfg, length, drafts, pieces);
  }

  /** Chunks within the limits of size and document, in strictly increasing order. */
  ghost predicate WellShaped(ds: seq<Draft>, cfg: Config, length: nat) {
    && (forall k | 0 <= k < |ds| :: ds[k].content != "" && Trimmed(ds[k].content) && |ds[k].content| <= cfg.maxChars)
    && (forall k | 0 <= k < |ds| :: ds[k].charStart <= ds[k].charEnd <= length)
    && (forall k | 0 <= k < |ds| - 1 :: ds[k].charStart < ds[k + 1].charStart)
  }

  lemma CompleteIsWellShaped(blocks: seq<Block>, cfg: Config, length: nat, ds: seq<Draft>, ps: seq<seq<Piece>>)
    requires cfg.Valid() && GoodBlocks(blocks, length) && Complete(blocks, cfg, ds, ps, length)
    ensures WellShaped(ds, cfg, length)
  {
    hide Packing, GoodBlocks, Trimmed;
    forall k | 0 <= k < |ds|
      ensures ds[k].content != "" && Trimmed(ds[k].content) && |ds[k].content| <= cfg.maxChars
      ensures ds[k].charStart <= ds[k].charEnd <= length && (k < |ds| - 1 ==> ds[k].charStart < ds[k + 1].charStart)
    {
      PackingAt(blocks, cfg, ds, ps, k);
      ChunkOffsets(blocks, cfg, length, ds, ps, k);
    }
  }

  function Max(a: nat, b: nat): nat {
    if a >= b then a else b
  }

  // ---------------------------------------------------------------- documents

  lemma ScannedBlocksAreGood(content: string)
    ensures GoodBlocks(Blocks(content), |content|)
  {
    hide Blocks;
    var bs := Blocks(content);
    forall k | 0 <= k < |bs|
      ensures bs[k].text != "" && Trimmed(bs[k].text)
      ensures bs[k].charStart + |bs[k].text| <= bs[k].charEnd <= |content|
      ensures forall l | k < l < |bs| :: bs[k].charEnd <= bs[l].charStart
    {
      BlockOfGroup(content, k);
      BlockOffsets(content, k);
    }
  }

  function SectionTitle(path: seq<string>): Option<string> {
    if path != [] then Some(path[|path| - 1]) else None
  }

  ghost function Drafts(chunks: seq<Candidate>): seq<Draft> {
    seq(|chunks|, k requires 0 <= k < |chunks| =>
      Draft(chunks[k].content, chunks[k].headingPath, chunks[k].charStart, chunks[k].charEnd))
  }

  /** The section title is the last heading of the path, and missing without headings. */
  ghost predicate IsSection(path: seq<string>, title: Option<string>) {
    if path == [] then title == None else title == Some(Last(path))
  }

  ghost predicate IsCandidate(c: Candidate, k: nat, d: Draft) {
    && c.chunkIndex == k && c.content == d.content && c.headingPath == d.headingPath
    && c.charStart == d.charStart && c.charEnd == d.charEnd && IsSection(d.headingPath, c.sectionTitle)
  }

  ghost predicate AreCandidates(chunks: seq<Candidate>, drafts: seq<Draft>) {
    |chunks| <= |drafts| && forall k | 0 <= k < |chunks| :: IsCandidate(chunks[k], k, drafts[k])
  }

  lemma NoCandidates(drafts: seq<Draft>)
    ensures AreCandidates([], drafts)
  {
  }

  lemma OneMoreCandidate(chunks: seq<Candidate>, drafts: seq<Draft>)
    requires AreCandidates(chunks, drafts) && |chunks| < |drafts|
    ensures var i, d := |chunks|, drafts[|chunks|];
            var c := Candidate(i, d.content, d.headingPath, SectionTitle(d.headingPath), d.charStart, d.charEnd);
            AreCandidates(chunks + [c], drafts)
  {
  }

  lemma CandidatesAre(chunks: seq<Candidate>, drafts: seq<Draft>)
    requires |chunks| == |drafts| && AreCandidates(chunks, drafts)
    ensures Drafts(chunks) == drafts
    ensures forall k | 0 <= k < |chunks| :: chunks[k].chunkIndex == k
    ensures forall k | 0 <= k < |chunks| :: IsSection(chunks[k].headingPath, chunks[k].sectionTitle)
  {
    hide IsSection;
  }

  /** `chunk_document`: the chunks of a document are a complete packing of its blocks,
      numbered from 0. */
  method ChunkDocument(content: string, cfg: Config) returns (chunks: seq<Candidate>, ghost pieces: seq<seq<Piece>>)
    requires 0 <= cfg.overlapChars < cfg.maxChars
    ensures Complete(Blocks(content), cfg, Drafts(chunks), pieces, |content|)
    ensures forall k | 0 <= k < |chunks| :: chunks[k].chunkIndex == k
    ensures forall k | 0 <= k < |chunks| :: IsSection(chunks[k].headingPath, chunks[k].sectionTitle)
  {
    assert cfg.Valid();
    hide *;
    var blocks := ScanBlocks(content);
    ScannedBlocksAreGood(content);
    var drafts;
    drafts, pieces := Pack(blocks, cfg, |content|);
    chunks := [];
    NoCandidates(drafts);
    for i := 0 to |drafts|
      invariant |chunks| == i
      invariant AreCandidates(chunks, drafts)
    {
      var d := drafts[i];
      OneMoreCandidate(chunks, drafts);
      chunks := chunks + [Candidate(i, d.content, d.headingPath, SectionTitle(d.headingPath), d.charStart, d.charEnd)];
    }
    CandidatesAre(chunks, drafts);
  }

  // ---------------------------------------------------------------- what a packing promises

  /** Character `x` of block `b` is in a piece of one of the first `n` chunks. */
  ghost predicate Covered(ps: seq<seq<Piece>>, n: nat, b: nat, x: nat)
    requires n <= |ps|
  {
    exists k, j :: 0 <= k < n && 0 <= j < |ps[k]| && ps[k][j].block == b && ps[k][j].from <= x < ps[k][j].to
  }

  lemma CoveredByChunk(blocks: seq<Block>, cfg: Config, d: Draft, ps: seq<seq<Piece>>, k: nat, b: nat, x: nat)
    requires k < |ps| && Carries(blocks, cfg, d, ps[k]) && b < |blocks| && x < |blocks[b].text|
    requires ps[k][0].block <= b <= Last(ps[k]).block
    requires b == ps[k][0].block ==> ps[k][0].from <= x
    requires b == Last(ps[k]).block ==> x < Last(ps[k]).to
    ensures Covered(ps, k + 1, b, x)
  {
    hide JoinPieces, Trimmed;
    var j := b - ps[k][0].block;
    assert ps[k][j].block == b;
    assert ps[k][j].from <= x < ps[k][j].to;
  }

  lemma {:induction false} CoveredBefore(blocks: seq<Block>, cfg: Config, ds: seq<Draft>, ps: seq<seq<Piece>>, k: nat,
                                         b: nat, x: nat)
    requires Packing(blocks, cfg, ds, ps) && k < |ds|
    requires b < |blocks| && x < |blocks[b].text| && !IsSpace(blocks[b].text[x])
    requires b < ps[k][0].block || (b == ps[k][0].block && x < ps[k][0].from)
    ensures Covered(ps, k, b, x)
  {
    hide IsSpace, Carries, Await;
    var q := ps[k][0];
    PackingAt(blocks, cfg, ds, ps, k);
    if k == 0 {
      assert Await(blocks, cfg, [], [], q.block, q.from, ds[k].charStart) by {
        assert ds[..0] == [] && ps[..0] == [];
      }
      FirstAwaited(blocks, cfg, q.block, q.from, ds[k].charStart);
    } else {
      var first, p := ps[k - 1][0], Last(ps[k - 1]);
      if b < first.block || (b == first.block && x < first.from) {
        CoveredBefore(blocks, cfg, ds, ps, k - 1, b, x);
        var l, j :| 0 <= l < k - 1 && 0 <= j < |ps[l]| && ps[l][j].block == b && ps[l][j].from <= x < ps[l][j].to;
      } else {
        CoveredByChunk(blocks, cfg, ds[k - 1], ps, k - 1, b, x);
      }
    }
  }

  lemma FirstAwaited(blocks: seq<Block>, cfg: Config, block: nat, from: nat, charStart: nat)
    requires Await(blocks, cfg, [], [], block, from, charStart)
    ensures block == 0 && from == 0
  {
  }

  /** No text is lost: every character of every block that is not whitespace is in a piece
      carried by some chunk. */
  lemma NoTextLost(blocks: seq<Block>, cfg: Config, length: nat, ds: seq<Draft>, ps: seq<seq<Piece>>, b: nat, x: nat)
    requires Complete(blocks, cfg, ds, ps, length)
    requires b < |blocks| && x < |blocks[b].text| && !IsSpace(blocks[b].text[x])
    ensures Covered(ps, |ps|, b, x)
  {
    hide IsSpace, Carries, Await;
    var k := |ds| - 1;
    if b < ps[k][0].block || (b == ps[k][0].block && x < ps[k][0].from) {
      CoveredBefore(blocks, cfg, ds, ps, k, b, x);
    } else {
      CoveredByChunk(blocks, cfg, ds[k], ps, k, b, x);
    }
  }

  /** Pieces stay in order: the next chunk starts with the next block, or goes on in the same
      block, sharing at most `overlapChars` characters and skipping only whitespace. */
  lemma PiecesInOrder(blocks: seq<Block>, cfg: Config, ds: seq<Draft>, ps: seq<seq<Piece>>, k: nat)
    requires Packing(blocks, cfg, ds, ps) && k + 1 < |ds|
    ensures var p, q := Last(ps[k]), ps[k + 1][0];
            && p.block < |blocks| && p.to <= |blocks[p.block].text|
            && if q.block == p.block then
                 && |ps[k]| == 1 && p.from < q.from <= |blocks[p.block].text|
                 && p.to - q.from <= cfg.overlapChars
                 && (forall x | p.to <= x < q.from :: IsSpace(blocks[p.block].text[x]))
               else q.block == p.block + 1 && q.from == 0 && p.to == |blocks[p.block].text|
  {
    hide IsSpace, JoinPieces, Trimmed;
    assert Carries(blocks, cfg, ds[k], ps[k]) && Carries(blocks, cfg, ds[k + 1], ps[k + 1]);
    assert Await(blocks, cfg, ds[..k + 1], ps[..k + 1], ps[k + 1][0].block, ps[k + 1][0].from, ds[k + 1].charStart);
    assert Last(ds[..k + 1]) == ds[k] && Last(ps[..k + 1]) == ps[k];
  }

  lemma ContentOfOne(blocks: seq<Block>, cfg: Config, d: Draft, p: Piece)
    requires Carries(blocks, cfg, d, [p])
    ensures |d.content| == p.to - p.from
  {
    hide Trimmed;
  }

  /** Chunk starts strictly increase, and every chunk lies within the document. */
  lemma ChunkOffsets(blocks: seq<Block>, cfg: Config, length: nat, ds: seq<Draft>, ps: seq<seq<Piece>>, k: nat)
    requires GoodBlocks(blocks, length) && cfg.Valid() && Complete(blocks, cfg, ds, ps, length) && k < |ds|
    ensures ds[k].charStart <= ds[k].charEnd <= length
    ensures k + 1 < |ds| ==> ds[k].charStart < ds[k + 1].charStart
  {
    hide IsSpace, JoinPieces, Trimmed, Await;
    PackingAt(blocks, cfg, ds, ps, k);
    var p := ps[k][0];
    assert blocks[p.block].charStart + |blocks[p.block].text| <= length;
    if k + 1 < |ds| {
      PiecesInOrder(blocks, cfg, ds, ps, k);
      PackingAt(blocks, cfg, ds, ps, k + 1);
      if |ps[k]| == 1 {
        assert ps[k] == [p];
        ContentOfOne(blocks, cfg, ds[k], p);
      }
    }
  }

  lemma PackingAt(blocks: seq<Block>, cfg: Config, ds: seq<Draft>, ps: seq<seq<Piece>>, k: nat)
    requires Packing(blocks, cfg, ds, ps) && k < |ds|
    ensures Carries(blocks, cfg, ds[k], ps[k])
    ensures k > 0 ==>
              || SplitBreak(blocks, cfg, ds[k - 1], Last(ps[k - 1]), ps[k][0].block, ps[k][0].from, ds[k].charStart)
              || BlockBreak(blocks, cfg, ds[k - 1], Last(ps[k - 1]), ps[k][0].block, ps[k][0].from, ds[k].charStart)
  {
    hide SplitBreak, BlockBreak;
    assert Await(blocks, cfg, ds[..k], ps[..k], ps[k][0].block, ps[k][0].from, ds[k].charStart);
    if k > 0 {
      assert Carries(blocks, cfg, ds[k - 1], ps[k - 1]);
      assert Last(ds[..k]) == ds[k - 1] && Last(ps[..k]) == ps[k - 1];
    }
  }

  /** Every chunk is non-empty, trimmed and within the size limit, and its heading path is
      the chain of headings, told by the lines that match the pattern, open at every line of every
      block it draws from. */
  lemma ChunkShape(content: string, cfg: Config, ds: seq<Draft>, ps: seq<seq<Piece>>, k: nat, j: nat, l: nat)
    requires Complete(Blocks(content), cfg, ds, ps, |content|) && k < |ds| && j < |ps[k]|
    requires ps[k][j].block < |Blocks(content)| ==>
               KeptGroups(content)[ps[k][j].block].from <= l < KeptGroups(content)[ps[k][j].block].to
    ensures ds[k].content != "" && Trimmed(ds[k].content) && |ds[k].content| <= cfg.maxChars
    ensures l < |SplitLines(content)| && StandsUnder(SplitLines(content), l + 1, ds[k].headingPath)
  {
    hide Blocks, KeptGroups, SplitLines, StandsUnder, JoinPieces, Await, Trimmed;
    BlockPath(content, ps[k][j].block, l);
  }
}
