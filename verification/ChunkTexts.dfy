/**
 The texts of sections, parts and chunks, character by character (packages/retrieval/chunking.py).
 */
module ChunkTexts {
  import opened Model
  import opened Splitter
  import opened BoundedSplitting
  import opened Chunking

  // `piece` stands in `text` from position `at` on.
  predicate Stands(text: string, at: int, piece: string) {
    && 0 <= at && at + |piece| <= |text|
    && forall j {:trigger text[j]} | at <= j < at + |piece| :: text[j] == piece[j - at]
  }

  // The code points of white space.
  const SPACES: set<int> :=
    {0x09, 0x0A, 0x0B, 0x0C, 0x0D, 0x1C, 0x1D, 0x1E, 0x1F, 0x20, 0x85, 0xA0, 0x1680,
     0x2000, 0x2001, 0x2002, 0x2003, 0x2004, 0x2005, 0x2006, 0x2007, 0x2008, 0x2009, 0x200A,
     0x2028, 0x2029, 0x202F, 0x205F, 0x3000}

  lemma SpacesAreWhiteSpace(c: char)
    ensures IsSpace(c) <==> c as int in SPACES
  {
  }

  // ---------------------------------------------------------------- sections

  // The characters of the first `n` lines, and one line break after each of them.
  function Offset(lines: seq<Line>, n: nat): nat
    requires n <= |lines|
  {
    if n == 0 then 0 else Offset(lines, n - 1) + |lines[n - 1].text| + 1
  }

  // Line `k` stands at its offset, and a line break follows unless it is the last line.
  predicate LineAt(text: string, lines: seq<Line>, k: nat)
    requires k < |lines|
  {
    && Stands(text, Offset(lines, k), lines[k].text)
    && (k < |lines| - 1 ==> Stands(text, Offset(lines, k) + |lines[k].text|, "\n"))
  }

  // The lines, with a line break between each two, and nothing else.
  predicate Spells(text: string, lines: seq<Line>) {
    && |text| == (if lines == [] then 0 else Offset(lines, |lines|) - 1)
    && forall k {:trigger LineAt(text, lines, k)} | 0 <= k < |lines| :: LineAt(text, lines, k)
  }

  lemma StandsBefore(text: string, more: string, at: int, piece: string)
    requires Stands(text, at, piece)
    ensures Stands(text + more, at, piece)
  {
    assert (text + more)[at..at + |piece|] == text[at..at + |piece|];
  }

  lemma StandsLast(text: string, piece: string)
    ensures Stands(text + piece, |text|, piece)
  {
  }

  lemma {:induction false} OffsetOfFront(lines: seq<Line>, line: Line, n: nat)
    requires n <= |lines|
    ensures Offset(lines + [line], n) == Offset(lines, n)
    decreases n
  {
    if n > 0 {
      OffsetOfFront(lines, line, n - 1);
    }
  }

  lemma BreakFollows(text: string, more: string, end: nat)
    requires end == |text| || Stands(text, end, "\n")
    requires more != "" && more[0] == '\n'
    ensures Stands(text + more, end, "\n")
  {
    if end == |text| {
      assert (text + more)[end..end + 1] == "\n";
    } else {
      StandsBefore(text, more, end, "\n");
    }
  }

  lemma LineEnds(lines: seq<Line>, k: nat)
    requires k < |lines|
    ensures Offset(lines, k + 1) == Offset(lines, k) + |lines[k].text| + 1
  {
  }

  // A line stays where it is when another one follows.
  lemma LineStays(text: string, more: string, lines: seq<Line>, longer: seq<Line>, k: nat)
    requires k < |lines| == |longer| - 1 && longer[k] == lines[k] && Offset(longer, k) == Offset(lines, k)
    requires LineAt(text, lines, k) && |text| == Offset(lines, |lines|) - 1
    requires more != "" && more[0] == '\n'
    ensures LineAt(text + more, longer, k)
  {
    var at, piece := Offset(lines, k), lines[k].text;
    LineEnds(lines, k);
    StandsBefore(text, more, at, piece);
    BreakFollows(text, more, at + |piece|);
    assert Stands(text + more, Offset(longer, k), longer[k].text);
  }

  lemma OneMoreLine(text: string, lines: seq<Line>, line: Line)
    requires lines != [] && Spells(text, lines)
    ensures Spells(text + "\n" + line.text, lines + [line])
  {
    var n, longer, more := |lines|, text + "\n" + line.text, "\n" + line.text;
    assert longer == text + more;
    OffsetOfFront(lines, line, n);
    StandsLast(text + "\n", line.text);
    forall k | 0 <= k < n + 1 ensures LineAt(longer, lines + [line], k) {
      if k < n {
        OffsetOfFront(lines, line, k);
        LineStays(text, more, lines, lines + [line], k);
      }
    }
  }

  lemma {:induction false} JoinedLinesSpell(lines: seq<Line>)
    ensures Spells(JoinLines(lines), lines)
    decreases |lines|
  {
    if |lines| == 1 {
      assert Offset(lines, 1) == Offset(lines, 0) + |lines[0].text| + 1;
      assert LineAt(lines[0].text, lines, 0);
    } else if lines != [] {
      var m := |lines| - 1;
      JoinedLinesSpell(lines[..m]);
      OneMoreLine(JoinLines(lines[..m]), lines[..m], lines[m]);
      assert lines[..m] + [lines[m]] == lines;
    }
  }

  lemma {:induction false} SectionAt(lines: seq<Line>, ranges: seq<Range>, k: nat)
    requires AllWithin(lines, ranges) && k < |ranges|
    ensures |SectionsFrom(lines, ranges)| == |ranges|
    ensures SectionsFrom(lines, ranges)[k] == SectionOf(lines, ranges[k])
    decreases |ranges|
  {
    if |ranges| > 1 {
      SectionAt(lines, ranges[..|ranges| - 1], if k < |ranges| - 1 then k else 0);
    }
  }

  // Every section has its heading and spells its own lines, the line breaks between them included.
  lemma SectionsSpellTheirLines(lines: seq<Line>, markdown: string, k: nat)
    requires Ranges(lines) != [] && k < |AllSections(lines, markdown)|
    ensures |AllSections(lines, markdown)| == |Ranges(lines)|
    ensures var section, r := AllSections(lines, markdown)[k], Ranges(lines)[k];
            r.from < r.to <= |lines| && section.heading == r.heading && Spells(section.text, lines[r.from..r.to])
  {
    var ranges := Ranges(lines);
    BlocksWithin(lines);
    SectionAt(lines, ranges, 0);
    SectionAt(lines, ranges, k);
    SectionsPartitionLines(lines);
    var r := ranges[k];
    assert IsBlock(lines, r) && Speaks(lines, r);
    JoinedLinesSpell(lines[r.from..r.to]);
  }

  // A document is one section of its own text exactly when no line but headings has text.
  lemma WholeDocumentExactlyWhen(lines: seq<Line>, markdown: string)
    ensures Ranges(lines) == [] <==> forall i | 0 <= i < |lines| :: !IsText(lines[i])
    ensures Ranges(lines) == [] ==> AllSections(lines, markdown) == [Section(None, markdown)]
  {
    SectionsPartitionLines(lines);
    var ranges := Ranges(lines);
    if ranges != [] {
      assert IsBlock(lines, ranges[0]) && Speaks(lines, ranges[0]);
      var i :| ranges[0].from <= i < ranges[0].to && !Blank(lines[i].text);
      assert IsText(lines[i]);
    } else {
      forall i | 0 <= i < |lines| ensures !IsText(lines[i]) {
        assert IsText(lines[i]) ==> Covered(ranges, i);
      }
    }
  }

  // Lines before the first heading are under none.
  lemma {:induction false} NoHeadingYet(lines: seq<Line>, n: nat)
    requires n <= |lines| && forall i | 0 <= i < n :: lines[i].title.None?
    ensures NearestHeading(lines, n) == None
    decreases n
  {
    if n > 0 {
      NoHeadingYet(lines, n - 1);
    }
  }

  // ---------------------------------------------------------------- parts

  // Where piece `k` of a part begins: after the carried text and the pieces before it, each with a blank line.
  function PieceOffset(p: Part, k: nat): nat
    requires k <= |p.pieces|
  {
    if k == 0 then (if p.carry == "" then 0 else |p.carry| + 2)
    else PieceOffset(p, k - 1) + |p.pieces[k - 1].text| + 2
  }

  // Piece `k` stands at its offset, after an empty line if it follows anything.
  predicate PieceAt(text: string, p: Part, k: nat)
    requires k < |p.pieces|
  {
    var at := PieceOffset(p, k);
    Stands(text, at, p.pieces[k].text) && (at > 0 ==> Stands(text, at - 2, "\n\n"))
  }

  // The carried text, then the pieces with empty lines between, and nothing else.
  predicate Shows(text: string, p: Part) {
    && p.carry <= text
    && |text| == (if p.pieces == [] then |p.carry| else PieceOffset(p, |p.pieces|) - 2)
    && forall k {:trigger PieceAt(text, p, k)} | 0 <= k < |p.pieces| :: PieceAt(text, p, k)
  }

  lemma {:induction false} PieceOffsetOfFront(p: Part, piece: Piece, k: nat)
    requires k <= |p.pieces|
    ensures PieceOffset(Extend(p, piece), k) == PieceOffset(p, k)
    decreases k
  {
    if k > 0 {
      PieceOffsetOfFront(p, piece, k - 1);
    }
  }

  lemma PieceStays(text: string, more: string, p: Part, piece: Piece, k: nat)
    requires k < |p.pieces| && PieceAt(text, p, k)
    ensures PieceAt(text + more, Extend(p, piece), k)
  {
    var at := PieceOffset(p, k);
    PieceOffsetOfFront(p, piece, k);
    StandsBefore(text, more, at, p.pieces[k].text);
    if at > 0 {
      StandsBefore(text, more, at - 2, "\n\n");
    }
  }

  // The new piece comes last.
  lemma NewPiece(text: string, p: Part, piece: Piece)
    requires Shows(text, p) && (text == "" <==> p.carry == "" && p.pieces == [])
    ensures PieceAt(Join(text, piece.text), Extend(p, piece), |p.pieces|)
    ensures |Join(text, piece.text)| == PieceOffset(Extend(p, piece), |p.pieces| + 1) - 2
  {
    var n := |p.pieces|;
    PieceOffsetOfFront(p, piece, n);
    if text != "" {
      StandsLast(text, "\n\n");
      StandsBefore(text + "\n\n", piece.text, |text|, "\n\n");
      StandsLast(text + "\n\n", piece.text);
      assert PieceOffset(p, n) == |text| + 2;
    }
  }

  lemma OneMorePiece(text: string, p: Part, piece: Piece)
    requires Shows(text, p) && (text == "" <==> p.carry == "" && p.pieces == [])
    ensures Shows(Join(text, piece.text), Extend(p, piece))
  {
    var longer := Join(text, piece.text);
    var more := longer[|text|..];
    assert longer == text + more;
    NewPiece(text, p, piece);
    forall k | 0 <= k < |p.pieces| + 1 ensures PieceAt(longer, Extend(p, piece), k) {
      if k < |p.pieces| {
        PieceStays(text, more, p, piece, k);
      }
    }
  }

  lemma {:induction false} RenderShows(p: Part)
    requires forall j | 0 <= j < |p.pieces| :: p.pieces[j].text != ""
    ensures Shows(Render(p), p) && (Render(p) == "" <==> p.carry == "" && p.pieces == [])
    decreases |p.pieces|
  {
    if p.pieces != [] {
      var m := |p.pieces| - 1;
      var front := Part(p.carry, p.pieces[..m]);
      RenderShows(front);
      OneMorePiece(Render(front), front, p.pieces[m]);
      assert Extend(front, p.pieces[m]) == p;
    }
  }

  // The carried text is the end of the part before.
  lemma CarryIsEnd(s: string, n: nat)
    ensures var m := if n <= |s| then n else |s|;
            Tail(s, n) == s[|s| - m..]
  {
  }

  // Every part shows its pieces, and each later one starts with the last characters of the part before it, as many as
  // the overlap asks for and as there are.
  lemma PartsShowAndOverlap(l: Limits, ps: seq<string>, parts: seq<string>, cuts: seq<Part>, k: nat)
    requires Splits(l, ps, parts, cuts) && k < |parts|
    ensures Shows(parts[k], cuts[k]) && cuts[k].carry <= parts[k]
    ensures k == 0 ==> cuts[k].carry == ""
    ensures k > 0 ==>
              var n := if l.overlap <= |parts[k - 1]| then l.overlap else |parts[k - 1]|;
              cuts[k].carry == parts[k - 1][|parts[k - 1]| - n..]
  {
    assert Ordered(cuts[k]) && parts[k] == Render(cuts[k]);
    RenderShows(cuts[k]);
    assert Carries(l, cuts, k);
    if k > 0 {
      CarryIsEnd(parts[k - 1], l.overlap);
    }
  }

  lemma {:induction false} TotalFromFront(ps: seq<string>)
    requires ps != []
    ensures TotalLength(ps) == |ps[0]| + TotalLength(ps[1..])
    decreases |ps|
  {
    if |ps| > 1 {
      var n := |ps| - 1;
      TotalFromFront(ps[..n]);
      assert ps[..n][1..] == ps[1..][..n - 1];
    }
  }

  // The length that decides termination counts every paragraph, and two characters between each two.
  lemma {:induction false} JoinedLengthCounts(ps: seq<string>)
    requires ps != []
    ensures JoinedLength(ps) == TotalLength(ps) + 2 * (|ps| - 1)
    decreases |ps|
  {
    TotalFromFront(ps);
    if |ps| > 1 {
      JoinedLengthCounts(ps[1..]);
    }
  }

  // ---------------------------------------------------------------- chunks

  // How many texts are not blank.
  function Spoken(texts: seq<string>): nat {
    if texts == [] then 0 else Spoken(texts[..|texts| - 1]) + if Blank(texts[|texts| - 1]) then 0 else 1
  }

  // And how many parts of all sections.
  function SpokenIn(parts: seq<seq<string>>): nat {
    if parts == [] then 0 else SpokenIn(parts[..|parts| - 1]) + Spoken(parts[|parts| - 1])
  }

  // The content is the text without the blanks at its ends.
  ghost predicate Trims(content: string, text: string) {
    Stripped(content) && exists from: nat, to: nat :: Cutout(content, text, from, to)
  }

  predicate Cutout(content: string, text: string, from: nat, to: nat) {
    from <= to <= |text| && content == text[from..to] && Blank(text[..from]) && Blank(text[to..])
  }

  lemma StripTrims(text: string)
    requires !Blank(text)
    ensures Trims(Strip(text), text)
  {
    StripRemovesOnlySpace(text);
    var from, to := StripCutsEnds(text);
    assert Cutout(Strip(text), text, from, to);
  }

  // A chunk at its position, with the section's heading and a part's trimmed text.
  ghost predicate ChunkAt(chunks: seq<Chunk>, k: nat, heading: Option<string>, text: string) {
    && k < |chunks| && chunks[k].position == k && chunks[k].heading == heading && Trims(chunks[k].content, text)
  }

  // Text `j` has its chunk, after those of the texts before it, unless it is blank.
  ghost predicate Chunked(chunks: seq<Chunk>, from: nat, heading: Option<string>, texts: seq<string>, j: nat)
    requires j < |texts|
  {
    !Blank(texts[j]) ==> ChunkAt(chunks, from + Spoken(texts[..j]), heading, texts[j])
  }

  lemma ChunkStays(chunks: seq<Chunk>, after: seq<Chunk>, from: nat, heading: Option<string>, texts: seq<string>,
                   n: nat, j: nat)
    requires j < n <= |texts| && chunks <= after && Chunked(chunks, from, heading, texts[..n], j)
    ensures Chunked(after, from, heading, texts, j)
  {
    assert texts[..n][..j] == texts[..j];
  }

  lemma {:induction false} AppendedChunks(chunks: seq<Chunk>, heading: Option<string>, texts: seq<string>)
    ensures var after := Appended(chunks, heading, texts);
            && |after| == |chunks| + Spoken(texts) && chunks <= after
            && forall j {:trigger Chunked(after, |chunks|, heading, texts, j)} | 0 <= j < |texts| ::
                 Chunked(after, |chunks|, heading, texts, j)
    decreases |texts|
  {
    if texts != [] {
      var n := |texts| - 1;
      AppendedChunks(chunks, heading, texts[..n]);
      var before, after := Appended(chunks, heading, texts[..n]), Appended(chunks, heading, texts);
      StripRemovesOnlySpace(texts[n]);
      if !Blank(texts[n]) {
        StripTrims(texts[n]);
        assert ChunkAt(after, |before|, heading, texts[n]);
      }
      forall j | 0 <= j < |texts| ensures Chunked(after, |chunks|, heading, texts, j) {
        if j < n {
          assert Chunked(before, |chunks|, heading, texts[..n], j);
          ChunkStays(before, after, |chunks|, heading, texts, n, j);
        }
      }
    }
  }

  // The parts of section `i` have their chunks, after those of the sections before it.
  ghost predicate SectionChunked(chunks: seq<Chunk>, sections: seq<Section>, parts: seq<seq<string>>, i: nat)
    requires i < |sections| == |parts|
  {
    var from := SpokenIn(parts[..i]);
    forall j {:trigger Chunked(chunks, from, sections[i].heading, parts[i], j)} | 0 <= j < |parts[i]| ::
      Chunked(chunks, from, sections[i].heading, parts[i], j)
  }

  lemma SectionStays(chunks: seq<Chunk>, after: seq<Chunk>, sections: seq<Section>, parts: seq<seq<string>>, n: nat,
                     i: nat)
    requires i < n <= |sections| == |parts| && chunks <= after
    requires SectionChunked(chunks, sections[..n], parts[..n], i)
    ensures SectionChunked(after, sections, parts, i)
  {
    assert parts[..n][..i] == parts[..i];
    var from, texts := SpokenIn(parts[..i]), parts[i];
    forall j | 0 <= j < |texts| ensures Chunked(after, from, sections[i].heading, texts, j) {
      assert Chunked(chunks, from, sections[i].heading, texts, j);
      assert texts[..|texts|] == texts;
      ChunkStays(chunks, after, from, sections[i].heading, texts, |texts|, j);
    }
  }

  // The chunks are the parts that are not blank, each at the number of such parts before it, under the heading of its
  // section, without the blanks at its ends; and there are no others.
  lemma {:induction false} ChunksAreSpokenParts(sections: seq<Section>, parts: seq<seq<string>>)
    requires |sections| == |parts|
    ensures var chunks := AllChunks(sections, parts);
            && |chunks| == SpokenIn(parts)
            && forall i {:trigger SectionChunked(chunks, sections, parts, i)} | 0 <= i < |parts| ::
                 SectionChunked(chunks, sections, parts, i)
    decreases |sections|
  {
    if sections != [] {
      var n := |sections| - 1;
      var before, chunks := AllChunks(sections[..n], parts[..n]), AllChunks(sections, parts);
      ChunksAreSpokenParts(sections[..n], parts[..n]);
      AppendedChunks(before, sections[n].heading, parts[n]);
      forall i | 0 <= i < |parts| ensures SectionChunked(chunks, sections, parts, i) {
        if i < n {
          assert SectionChunked(before, sections[..n], parts[..n], i);
          SectionStays(before, chunks, sections, parts, n, i);
        }
      }
    }
  }
}
