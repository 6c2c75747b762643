/**
 Sections of a Markdown document and the chunks made from them
 (packages/retrieval/chunking.py, `_sections` and `chunk`).

 A document comes as its lines (`str.splitlines`), each with the title the heading pattern
 found in it, if any; `paragraphsOf` gives the stripped non-empty paragraphs of a text.
 */
module Chunking {
  import opened Model
  import opened Splitter
  import opened BoundedSplitting

  datatype Line = Line(text: string, title: Option<string>)
  datatype Section = Section(heading: Option<string>, text: string)
  datatype Range = Range(heading: Option<string>, from: nat, to: nat)
  datatype Chunk = Chunk(position: nat, heading: Option<string>, content: string)

  // ---------------------------------------------------------------- stripping

  // The characters `str.strip` removes.
  predicate IsSpace(c: char) {
    || '\U{0009}' <= c <= '\U{000D}' || '\U{001C}' <= c <= '\U{0020}'
    || c == '\U{0085}' || c == '\U{00A0}' || c == '\U{1680}' || '\U{2000}' <= c <= '\U{200A}'
    || c == '\U{2028}' || c == '\U{2029}' || c == '\U{202F}' || c == '\U{205F}' || c == '\U{3000}'
  }

  function StripLeft(s: string): string {
    if s != "" && IsSpace(s[0]) then StripLeft(s[1..]) else s
  }

  function StripRight(s: string): string {
    if s != "" && IsSpace(s[|s| - 1]) then StripRight(s[..|s| - 1]) else s
  }

  function Strip(s: string): string {
    StripRight(StripLeft(s))
  }

  predicate Blank(s: string) {
    forall i | 0 <= i < |s| :: IsSpace(s[i])
  }

  predicate Stripped(s: string) {
    s != "" && !IsSpace(s[0]) && !IsSpace(s[|s| - 1])
  }

  lemma {:induction false} StripLeftDrops(s: string) returns (n: nat)
    ensures n <= |s| && StripLeft(s) == s[n..] && Blank(s[..n])
    ensures n < |s| ==> !IsSpace(s[n])
  {
    if s != "" && IsSpace(s[0]) {
      var rest := s[1..];
      var m := StripLeftDrops(rest);
      n := m + 1;
      forall i | 0 < i < n ensures IsSpace(s[i]) {
        assert rest[..m][i - 1] == s[i];
      }
    } else {
      n := 0;
    }
  }

  lemma {:induction false} StripRightDrops(s: string) returns (n: nat)
    ensures n <= |s| && StripRight(s) == s[..n] && Blank(s[n..])
    ensures n > 0 ==> !IsSpace(s[n - 1])
  {
    if s != "" && IsSpace(s[|s| - 1]) {
      var front := s[..|s| - 1];
      n := StripRightDrops(front);
      forall i | n <= i < |front| ensures IsSpace(s[i]) {
        assert front[n..][i - n] == s[i];
      }
    } else {
      n := |s|;
    }
  }

  // Strip cuts blank text off both ends and nothing else.
  lemma StripCutsEnds(s: string) returns (from: nat, to: nat)
    ensures from <= to <= |s| && Strip(s) == s[from..to] && Blank(s[..from]) && Blank(s[to..])
    ensures Strip(s) == "" || Stripped(Strip(s))
  {
    from := StripLeftDrops(s);
    var n := StripRightDrops(s[from..]);
    to := from + n;
    assert s[from..][..n] == s[from..to] && s[from..][n..] == s[to..];
    if n > 0 {
      assert s[from..to][0] == s[from] && s[from..to][n - 1] == s[from..][n - 1];
    }
  }

  lemma StripRemovesOnlySpace(s: string)
    ensures |Strip(s)| <= |s|
    ensures Strip(s) == "" <==> Blank(s)
    ensures Strip(s) != "" ==> Stripped(Strip(s))
  {
    var from, to := StripCutsEnds(s);
    if from < to {
      assert Strip(s)[0] == s[from];
    } else {
      assert s == s[..from] + s[to..];
    }
  }

  // ---------------------------------------------------------------- sections

  predicate HasText(lines: seq<Line>) {
    exists i :: 0 <= i < |lines| && !Blank(lines[i].text)
  }

  // Some line from `from` on and before `to` has text.
  predicate TextIn(lines: seq<Line>, from: nat, to: nat)
    requires to <= |lines|
  {
    exists i :: from <= i < to && !Blank(lines[i].text)
  }

  lemma TextInSlice(lines: seq<Line>, from: nat, to: nat)
    requires from <= to <= |lines|
    ensures HasText(lines[from..to]) <==> TextIn(lines, from, to)
  {
    if TextIn(lines, from, to) {
      var i :| from <= i < to && !Blank(lines[i].text);
      assert lines[from..to][i - from] == lines[i];
    }
  }

  // The lines with a line break between each two.
  function JoinLines(lines: seq<Line>): string {
    if lines == [] then "" else if |lines| == 1 then lines[0].text
    else JoinLines(lines[..|lines| - 1]) + "\n" + lines[|lines| - 1].text
  }

  // The title of the last heading among the first `n` lines.
  function NearestHeading(lines: seq<Line>, n: nat): Option<string>
    requires n <= |lines|
  {
    if n == 0 then None
    else if lines[n - 1].title.Some? then lines[n - 1].title
    else NearestHeading(lines, n - 1)
  }

  function BlockStart(lines: seq<Line>, n: nat): (from: nat)
    requires n <= |lines|
    ensures from <= n
  {
    if n == 0 then 0
    else if lines[n - 1].title.Some? then n
    else BlockStart(lines, n - 1)
  }

  // The open block is the lines after the last heading.
  lemma {:induction false} OpenLines(lines: seq<Line>, n: nat)
    requires n <= |lines|
    ensures var from := BlockStart(lines, n);
            && (from == 0 || lines[from - 1].title.Some?)
            && forall i | from <= i < n :: lines[i].title.None?
    decreases n
  {
    if n > 0 && lines[n - 1].title.None? {
      OpenLines(lines, n - 1);
    }
  }

  function CloseBlock(lines: seq<Line>, ranges: seq<Range>, n: nat): seq<Range>
    requires n <= |lines|
  {
    var from := BlockStart(lines, n);
    if TextIn(lines, from, n) then ranges + [Range(NearestHeading(lines, n), from, n)] else ranges
  }

  function RangesTo(lines: seq<Line>, n: nat): seq<Range>
    requires n <= |lines|
  {
    if n == 0 then []
    else if lines[n - 1].title.Some?
    then CloseBlock(lines, RangesTo(lines, n - 1), n - 1)
    else RangesTo(lines, n - 1)
  }

  function Ranges(lines: seq<Line>): seq<Range> {
    CloseBlock(lines, RangesTo(lines, |lines|), |lines|)
  }

  predicate Within(lines: seq<Line>, r: Range) {
    r.from <= r.to <= |lines|
  }

  function SectionOf(lines: seq<Line>, r: Range): Section
    requires Within(lines, r)
  {
    Section(r.heading, JoinLines(lines[r.from..r.to]))
  }

  predicate AllWithin(lines: seq<Line>, ranges: seq<Range>) {
    forall k | 0 <= k < |ranges| :: Within(lines, ranges[k])
  }

  function SectionsFrom(lines: seq<Line>, ranges: seq<Range>): seq<Section>
    requires AllWithin(lines, ranges)
  {
    if ranges == [] then []
    else SectionsFrom(lines, ranges[..|ranges| - 1]) + [SectionOf(lines, ranges[|ranges| - 1])]
  }

  predicate Covers(r: Range, i: nat) {
    r.from <= i < r.to
  }

  // A maximal run of non-heading lines under its nearest heading.
  predicate IsBlock(lines: seq<Line>, r: Range) {
    && Within(lines, r)
    && (forall i | r.from <= i < r.to :: lines[i].title.None?)
    && (r.from == 0 || lines[r.from - 1].title.Some?)
    && (r.to == |lines| || lines[r.to].title.Some?)
    && r.heading == NearestHeading(lines, r.to)
  }

  // Some of its lines have text.
  predicate Speaks(lines: seq<Line>, r: Range) {
    Within(lines, r) && TextIn(lines, r.from, r.to)
  }

  predicate Increasing(ranges: seq<Range>) {
    forall j, k | 0 <= j < k < |ranges| :: ranges[j].to < ranges[k].from
  }

  predicate IsText(line: Line) {
    line.title.None? && !Blank(line.text)
  }

  predicate Covered(ranges: seq<Range>, i: nat) {
    exists k :: 0 <= k < |ranges| && Covers(ranges[k], i)
  }

  predicate CoveredTo(lines: seq<Line>, ranges: seq<Range>, n: nat)
    requires n <= |lines|
  {
    forall i {:trigger Covered(ranges, i)} | 0 <= i < n && IsText(lines[i]) :: Covered(ranges, i)
  }

  lemma {:induction false} HeadingStays(lines: seq<Line>, from: nat, n: nat)
    requires from <= n <= |lines| && forall i | from <= i < n :: lines[i].title.None?
    ensures NearestHeading(lines, n) == NearestHeading(lines, from)
    decreases n
  {
    if from < n {
      HeadingStays(lines, from, n - 1);
    }
  }

  lemma CloseBlockCovers(lines: seq<Line>, ranges: seq<Range>, n: nat)
    requires n <= |lines| && CoveredTo(lines, ranges, BlockStart(lines, n))
    ensures CoveredTo(lines, CloseBlock(lines, ranges, n), n)
  {
    var from, closed := BlockStart(lines, n), CloseBlock(lines, ranges, n);
    forall i | 0 <= i < n && IsText(lines[i]) ensures Covered(closed, i) {
      if i < from {
        assert Covered(ranges, i);
        var k :| 0 <= k < |ranges| && Covers(ranges[k], i);
        assert Covers(closed[k], i);
      } else {
        assert Covers(closed[|closed| - 1], i);
      }
    }
  }

  predicate BlocksBefore(lines: seq<Line>, ranges: seq<Range>, n: nat) {
    var order := Increasing(ranges) && forall k | 0 <= k < |ranges| :: ranges[k].to < n;
    var blocks :=
      && order
      && (forall k {:trigger IsBlock(lines, ranges[k])} | 0 <= k < |ranges| :: IsBlock(lines, ranges[k]))
      && (forall k {:trigger Speaks(lines, ranges[k])} | 0 <= k < |ranges| :: Speaks(lines, ranges[k]));
    blocks
  }

  lemma OpenBlock(lines: seq<Line>, from: nat, n: nat)
    requires from <= n <= |lines| && forall i | from <= i < n :: lines[i].title.None?
    requires (from == 0 || lines[from - 1].title.Some?) && (n == |lines| || lines[n].title.Some?)
    ensures IsBlock(lines, Range(NearestHeading(lines, n), from, n))
  {
  }

  lemma OpenLinesAreBlock(lines: seq<Line>, from: nat, n: nat)
    requires n <= |lines| && (n == |lines| || lines[n].title.Some?) && from == BlockStart(lines, n)
    ensures IsBlock(lines, Range(NearestHeading(lines, n), from, n))
  {
    OpenLines(lines, n);
    OpenBlock(lines, from, n);
  }

  lemma OneMoreBlock(lines: seq<Line>, ranges: seq<Range>, r: Range, n: nat)
    requires BlocksBefore(lines, ranges, r.from) && IsBlock(lines, r) && Speaks(lines, r) && r.to < n
    ensures BlocksBefore(lines, ranges + [r], n)
  {
    forall k | 0 <= k < |ranges + [r]| ensures IsBlock(lines, (ranges + [r])[k]) && Speaks(lines, (ranges + [r])[k]) {
      assert k < |ranges| ==> IsBlock(lines, ranges[k]) && Speaks(lines, ranges[k]);
    }
  }

  lemma NoMoreBlocks(lines: seq<Line>, ranges: seq<Range>, m: nat, n: nat)
    requires BlocksBefore(lines, ranges, m) && m <= n
    ensures BlocksBefore(lines, ranges, n)
  {
    forall k | 0 <= k < |ranges| ensures IsBlock(lines, ranges[k]) && Speaks(lines, ranges[k]) {
    }
  }

  lemma CloseBlockKeeps(lines: seq<Line>, ranges: seq<Range>, n: nat)
    requires n <= |lines| && BlocksBefore(lines, ranges, BlockStart(lines, n))
    requires n == |lines| || lines[n].title.Some?
    ensures BlocksBefore(lines, CloseBlock(lines, ranges, n), n + 1)
  {
    var r := Range(NearestHeading(lines, n), BlockStart(lines, n), n);
    if TextIn(lines, r.from, n) {
      OpenLinesAreBlock(lines, r.from, n);
      OneMoreBlock(lines, ranges, r, n + 1);
    } else {
      NoMoreBlocks(lines, ranges, r.from, n + 1);
    }
  }

  // At a heading the open block is closed and a new one begins.
  lemma HeadingKeeps(lines: seq<Line>, ranges: seq<Range>, n: nat)
    requires n < |lines| && lines[n].title.Some?
    requires BlocksBefore(lines, ranges, BlockStart(lines, n)) && CoveredTo(lines, ranges, BlockStart(lines, n))
    ensures var closed := CloseBlock(lines, ranges, n);
            BlocksBefore(lines, closed, n + 1) && CoveredTo(lines, closed, n + 1)
  {
    CloseBlockKeeps(lines, ranges, n);
    CloseBlockCovers(lines, ranges, n);
    HeadingCovered(lines, CloseBlock(lines, ranges, n), n);
  }

  lemma HeadingCovered(lines: seq<Line>, ranges: seq<Range>, n: nat)
    requires n < |lines| && lines[n].title.Some? && CoveredTo(lines, ranges, n)
    ensures CoveredTo(lines, ranges, n + 1)
  {
    forall i | 0 <= i < n + 1 && IsText(lines[i]) ensures Covered(ranges, i) {
      assert i < n;
    }
  }

  lemma {:induction false} RangesToKept(lines: seq<Line>, n: nat)
    requires n <= |lines|
    ensures var open := BlockStart(lines, n);
            && BlocksBefore(lines, RangesTo(lines, n), open)
            && CoveredTo(lines, RangesTo(lines, n), open)
  {
    if n > 0 {
      RangesToKept(lines, n - 1);
      if lines[n - 1].title.Some? {
        HeadingKeeps(lines, RangesTo(lines, n - 1), n - 1);
      }
    }
  }

  // Every non-blank line that is no heading is in exactly one section, in order, under its nearest heading.
  lemma SectionsPartitionLines(lines: seq<Line>)
    ensures var ranges := Ranges(lines);
            && BlocksBefore(lines, ranges, |lines| + 1)
            && CoveredTo(lines, ranges, |lines|)
            && (forall i, j, k | 0 <= j < |ranges| && 0 <= k < |ranges| && Covers(ranges[j], i)
                 && Covers(ranges[k], i) :: j == k)
  {
    RangesToKept(lines, |lines|);
    CloseBlockKeeps(lines, RangesTo(lines, |lines|), |lines|);
    CloseBlockCovers(lines, RangesTo(lines, |lines|), |lines|);
    OneBlockEach(lines, Ranges(lines), |lines| + 1);
  }

  // The heading of a section is the nearest one before each of its lines.
  lemma SectionHeadingIsNearest(lines: seq<Line>, k: nat, i: nat)
    requires k < |Ranges(lines)| && Covers(Ranges(lines)[k], i)
    ensures i < |lines| && lines[i].title.None? && Ranges(lines)[k].heading == NearestHeading(lines, i)
  {
    SectionsPartitionLines(lines);
    var r := Ranges(lines)[k];
    assert IsBlock(lines, r);
    HeadingStays(lines, i, r.to);
  }

  lemma OneBlockEach(lines: seq<Line>, ranges: seq<Range>, n: nat)
    requires BlocksBefore(lines, ranges, n)
    ensures forall i, j, k | 0 <= j < |ranges| && 0 <= k < |ranges| && Covers(ranges[j], i) && Covers(ranges[k], i) ::
            j == k
  {
  }

  // A line under a heading gets that heading, and nothing between.
  lemma {:induction false} NearestHeadingIsNearest(lines: seq<Line>, n: nat, h: nat)
    requires h < n <= |lines| && lines[h].title.Some?
    requires forall i | h < i < n :: lines[i].title.None?
    ensures NearestHeading(lines, n) == lines[h].title
  {
    if h < n - 1 {
      NearestHeadingIsNearest(lines, n - 1, h);
    }
  }

  lemma BlocksWithin(lines: seq<Line>)
    ensures AllWithin(lines, Ranges(lines))
  {
    SectionsPartitionLines(lines);
    forall k | 0 <= k < |Ranges(lines)| ensures Within(lines, Ranges(lines)[k]) {
      assert IsBlock(lines, Ranges(lines)[k]);
    }
  }

  function AllSections(lines: seq<Line>, markdown: string): seq<Section> {
    BlocksWithin(lines);
    var ranges := Ranges(lines);
    if ranges == [] then [Section(None, markdown)] else SectionsFrom(lines, ranges)
  }

  method AnyText(lines: seq<Line>) returns (found: bool)
    ensures found <==> HasText(lines)
  {
    for i := 0 to |lines|
      invariant forall j | 0 <= j < i :: Blank(lines[j].text)
    {
      StripRemovesOnlySpace(lines[i].text);
      if Strip(lines[i].text) != "" {
        return true;
      }
    }
    return false;
  }

  lemma SectionsFromSnoc(lines: seq<Line>, ranges: seq<Range>, r: Range)
    requires AllWithin(lines, ranges) && Within(lines, r)
    ensures SectionsFrom(lines, ranges + [r]) == SectionsFrom(lines, ranges) + [SectionOf(lines, r)]
  {
    assert (ranges + [r])[..|ranges|] == ranges;
  }

  lemma RangesWithin(lines: seq<Line>, n: nat)
    requires n <= |lines|
    ensures AllWithin(lines, RangesTo(lines, n))
  {
    RangesToKept(lines, n);
    forall k | 0 <= k < |RangesTo(lines, n)| ensures Within(lines, RangesTo(lines, n)[k]) {
      assert IsBlock(lines, RangesTo(lines, n)[k]);
    }
  }

  // The lines of the open block.
  function Pending(lines: seq<Line>, n: nat): seq<Line>
    requires n <= |lines|
  {
    lines[BlockStart(lines, n)..n]
  }

  // The sections of the first `n` lines, the last block still open.
  function SectionsTo(lines: seq<Line>, n: nat): seq<Section>
    requires n <= |lines|
  {
    RangesWithin(lines, n);
    SectionsFrom(lines, RangesTo(lines, n))
  }

  function Closing(sections: seq<Section>, heading: Option<string>, pending: seq<Line>): seq<Section> {
    if HasText(pending) then sections + [Section(heading, JoinLines(pending))] else sections
  }

  lemma ClosingIsCloseBlock(lines: seq<Line>, n: nat)
    requires n <= |lines|
    ensures var closed := CloseBlock(lines, RangesTo(lines, n), n);
            && AllWithin(lines, closed)
            && SectionsFrom(lines, closed)
               == Closing(SectionsTo(lines, n), NearestHeading(lines, n), Pending(lines, n))
  {
    TextInSlice(lines, BlockStart(lines, n), n);
    RangesWithin(lines, n);
    SectionsFromSnoc(lines, RangesTo(lines, n),
                     Range(NearestHeading(lines, n), BlockStart(lines, n), n));
  }

  lemma HeadingLine(lines: seq<Line>, n: nat)
    requires n < |lines| && lines[n].title.Some?
    ensures SectionsTo(lines, n + 1)
            == Closing(SectionsTo(lines, n), NearestHeading(lines, n), Pending(lines, n))
    ensures NearestHeading(lines, n + 1) == lines[n].title && Pending(lines, n + 1) == []
  {
    ClosingIsCloseBlock(lines, n);
  }

  lemma TextLine(lines: seq<Line>, n: nat)
    requires n < |lines| && lines[n].title.None?
    ensures SectionsTo(lines, n + 1) == SectionsTo(lines, n) && NearestHeading(lines, n + 1) == NearestHeading(lines, n)
    ensures Pending(lines, n + 1) == Pending(lines, n) + [lines[n]]
  {
  }

  // At the end of the document the last block is closed; a document without text is one section.
  lemma LastLine(lines: seq<Line>, markdown: string)
    ensures var n := |lines|;
            var sections := Closing(SectionsTo(lines, n), NearestHeading(lines, n), Pending(lines, n));
            AllSections(lines, markdown) == if sections == [] then [Section(None, markdown)] else sections
  {
    ClosingIsCloseBlock(lines, |lines|);
  }

  method Sections(lines: seq<Line>, markdown: string)
    returns (sections: seq<Section>)
    ensures sections == AllSections(lines, markdown)
  {
    sections := [];
    var heading := None;
    var pending: seq<Line> := [];
    for n := 0 to |lines|
      invariant sections == SectionsTo(lines, n)
      invariant heading == NearestHeading(lines, n)
      invariant pending == Pending(lines, n)
    {
      var line := lines[n];
      var title := line.title;
      if title.Some? {
        HeadingLine(lines, n);
        var any := AnyText(pending);
        if any {
          sections := sections + [Section(heading, JoinLines(pending))];
        }
        heading := title;
        pending := [];
      } else {
        TextLine(lines, n);
        pending := pending + [line];
      }
    }
    LastLine(lines, markdown);
    var any := AnyText(pending);
    if any {
      sections := sections + [Section(heading, JoinLines(pending))];
    }
    if sections == [] {
      sections := [Section(None, markdown)];
    }
  }

  // ---------------------------------------------------------------- chunks

  predicate Contents(l: Limits, chunks: seq<Chunk>) {
    forall k | 0 <= k < |chunks| ::
      chunks[k].position == k && Stripped(chunks[k].content) && |chunks[k].content| <= l.maxChars
  }

  // The chunks one section's parts add after `chunks`: each part stripped, blank ones dropped.
  function Appended(chunks: seq<Chunk>, heading: Option<string>, parts: seq<string>): seq<Chunk> {
    if parts == [] then chunks
    else
      var before := Appended(chunks, heading, parts[..|parts| - 1]);
      var content := Strip(parts[|parts| - 1]);
      if content == "" then before else before + [Chunk(|before|, heading, content)]
  }

  function AllChunks(sections: seq<Section>, parts: seq<seq<string>>): seq<Chunk>
    requires |sections| == |parts|
  {
    if sections == [] then []
    else
      var n := |sections| - 1;
      Appended(AllChunks(sections[..n], parts[..n]), sections[n].heading, parts[n])
  }

  // `cuts[k]` explains `parts[k]` as a lossless split of the paragraphs of section `k`.
  predicate SectionsSplit(l: Limits, paragraphsOf: string -> seq<string>, sections: seq<Section>,
                          parts: seq<seq<string>>, cuts: seq<seq<Part>>)
  {
    && |sections| == |parts| == |cuts|
    && (forall k {:trigger SectionSplit(l, paragraphsOf, sections[k], parts[k], cuts[k])} | 0 <= k < |sections| ::
          SectionSplit(l, paragraphsOf, sections[k], parts[k], cuts[k]))
  }

  predicate SectionSplit(l: Limits, paragraphsOf: string -> seq<string>, section: Section, texts: seq<string>,
                         cuts: seq<Part>) {
    Splits(l, paragraphsOf(section.text), texts, cuts)
  }

  lemma SectionsSplitSnoc(l: Limits, paragraphsOf: string -> seq<string>, sections: seq<Section>,
                          parts: seq<seq<string>>,
                          cuts: seq<seq<Part>>, section: Section, texts: seq<string>, trace: seq<Part>)
    requires SectionsSplit(l, paragraphsOf, sections, parts, cuts)
             && SectionSplit(l, paragraphsOf, section, texts, trace)
    ensures SectionsSplit(l, paragraphsOf, sections + [section], parts + [texts], cuts + [trace])
  {
    forall k | 0 <= k < |sections + [section]|
      ensures SectionSplit(l, paragraphsOf, (sections + [section])[k], (parts + [texts])[k], (cuts + [trace])[k])
    {
      assert k < |sections| ==> SectionSplit(l, paragraphsOf, sections[k], parts[k], cuts[k]);
    }
  }

  predicate Fit(l: Limits, texts: seq<string>) {
    forall k | 0 <= k < |texts| :: |texts[k]| <= l.maxChars
  }

  lemma AllChunksSnoc(sections: seq<Section>, parts: seq<seq<string>>, section: Section, texts: seq<string>)
    requires |sections| == |parts|
    ensures AllChunks(sections + [section], parts + [texts])
            == Appended(AllChunks(sections, parts), section.heading, texts)
  {
    assert (sections + [section])[..|sections|] == sections && (parts + [texts])[..|parts|] == parts;
  }

  lemma AppendedSnoc(chunks: seq<Chunk>, heading: Option<string>, texts: seq<string>, text: string)
    ensures var before := Appended(chunks, heading, texts);
            Appended(chunks, heading, texts + [text])
            == if Strip(text) == "" then before else before + [Chunk(|before|, heading, Strip(text))]
  {
    assert (texts + [text])[..|texts|] == texts;
  }

  predicate Splittables(l: Limits, paragraphsOf: string -> seq<string>, sections: seq<Section>) {
    forall k | 0 <= k < |sections| :: Splittable(l, paragraphsOf(sections[k].text))
  }

  // The sections the method below asks for are exactly those on which the source's loop ends.
  lemma ChunkingEndsExactlyWhen(l: Limits, paragraphsOf: string -> seq<string>, sections: seq<Section>)
    requires Accepted(l) && forall k | 0 <= k < |sections| :: Paragraphs(paragraphsOf(sections[k].text))
    ensures Splittables(l, paragraphsOf, sections)
            <==> forall k | 0 <= k < |sections| :: Terminates(l, paragraphsOf(sections[k].text))
  {
    forall k | 0 <= k < |sections|
      ensures Splittable(l, paragraphsOf(sections[k].text)) <==> Terminates(l, paragraphsOf(sections[k].text))
    {
      TerminatesExactlyWhen(l, paragraphsOf(sections[k].text));
    }
  }

  /** Each section is split without loss, and the chunks are its stripped non-blank parts in order. */
  method ChunkDocument(l: Limits, paragraphsOf: string -> seq<string>, lines: seq<Line>, markdown: string)
    returns (chunks: seq<Chunk>, ghost parts: seq<seq<string>>, ghost cuts: seq<seq<Part>>)
    requires Splittables(l, paragraphsOf, AllSections(lines, markdown))
    ensures Contents(l, chunks)
    ensures SectionsSplit(l, paragraphsOf, AllSections(lines, markdown), parts, cuts)
    ensures chunks == AllChunks(AllSections(lines, markdown), parts)
  {
    chunks, parts, cuts := [], [], [];
    var sections := Sections(lines, markdown);
    for i := 0 to |sections|
      invariant SectionsSplit(l, paragraphsOf, sections[..i], parts, cuts)
      invariant Contents(l, chunks) && chunks == AllChunks(sections[..i], parts)
    {
      var section := sections[i];
      var texts, trace := SectionParts(l, paragraphsOf, section);
      assert sections[..i + 1] == sections[..i] + [section];
      AllChunksSnoc(sections[..i], parts, section, texts);
      SectionsSplitSnoc(l, paragraphsOf, sections[..i], parts, cuts, section, texts, trace);
      chunks := AppendParts(l, chunks, section.heading, texts);
      parts, cuts := parts + [texts], cuts + [trace];
    }
    assert sections[..|sections|] == sections;
  }

  method SectionParts(l: Limits, paragraphsOf: string -> seq<string>, section: Section)
    returns (texts: seq<string>, ghost cuts: seq<Part>)
    requires Splittable(l, paragraphsOf(section.text))
    ensures SectionSplit(l, paragraphsOf, section, texts, cuts) && Fit(l, texts)
  {
    texts, cuts := BoundedParts(l, paragraphsOf(section.text));
  }

  lemma OneMoreChunk(l: Limits, chunks: seq<Chunk>, heading: Option<string>, text: string)
    requires Contents(l, chunks) && |text| <= l.maxChars && Strip(text) != ""
    ensures Contents(l, chunks + [Chunk(|chunks|, heading, Strip(text))])
  {
    StripRemovesOnlySpace(text);
  }

  // The loop over one section's parts.
  method AppendParts(l: Limits, before: seq<Chunk>, heading: Option<string>, parts: seq<string>)
    returns (chunks: seq<Chunk>)
    requires Contents(l, before) && Fit(l, parts)
    ensures Contents(l, chunks) && chunks == Appended(before, heading, parts)
  {
    chunks := before;
    for j := 0 to |parts|
      invariant Contents(l, chunks) && chunks == Appended(before, heading, parts[..j])
    {
      var content := Strip(parts[j]);
      assert parts[..j + 1] == parts[..j] + [parts[j]];
      AppendedSnoc(before, heading, parts[..j], parts[j]);
      if content == "" {
        continue;
      }
      OneMoreChunk(l, chunks, heading, parts[j]);
      chunks := chunks + [Chunk(|chunks|, heading, content)];
    }
    assert parts[..|parts|] == parts;
  }
}
