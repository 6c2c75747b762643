/**
 What the splitter promises about its output, and the method that produces it
 (packages/retrieval/chunking.py, `_bounded_parts`).
 */
module BoundedSplitting {
  import opened Splitter

  function Flatten(parts: seq<Part>): seq<Piece> {
    if parts == [] then [] else Flatten(parts[..|parts| - 1]) + parts[|parts| - 1].pieces
  }

  // The fresh text cut from paragraph `i`, in order.
  function TextOf(pieces: seq<Piece>, i: nat): string {
    if pieces == [] then ""
    else
      var last := pieces[|pieces| - 1];
      TextOf(pieces[..|pieces| - 1], i) + if last.paragraph == i then last.text else ""
  }

  function Chars(pieces: seq<Piece>): nat {
    if pieces == [] then 0 else Chars(pieces[..|pieces| - 1]) + |pieces[|pieces| - 1].text|
  }

  function TotalLength(ps: seq<string>): nat {
    if ps == [] then 0 else TotalLength(ps[..|ps| - 1]) + |ps[|ps| - 1]|
  }

  // At most one piece of each paragraph, in paragraph order, none of them empty.
  predicate Ordered(p: Part) {
    && (forall j | 0 <= j < |p.pieces| :: p.pieces[j].text != "")
    && (forall i, j | 0 <= i < j < |p.pieces| :: p.pieces[i].paragraph < p.pieces[j].paragraph)
  }

  predicate InOrder(pieces: seq<Piece>) {
    forall i, j | 0 <= i < j < |pieces| :: pieces[i].paragraph <= pieces[j].paragraph
  }

  // A part that was closed because it was full, or too full for a separator and a character.
  predicate Closed(l: Limits, p: Part) {
    p.pieces != [] && l.maxChars - 2 <= |Render(p)| <= l.maxChars
  }

  // `next` starts a new paragraph, so `p` stopped at a paragraph's end.
  predicate Breaks(p: Part, next: Part) {
    p.pieces != [] && next.pieces != [] && p.pieces[|p.pieces| - 1].paragraph < next.pieces[0].paragraph
  }

  // Part `k` starts from the last `overlap` characters of the part before it.
  predicate Carries(l: Limits, parts: seq<Part>, k: nat)
    requires k < |parts|
  {
    parts[k].carry == if k == 0 then "" else Tail(Render(parts[k - 1]), l.overlap)
  }

  predicate Chained(l: Limits, parts: seq<Part>) {
    forall k | 0 <= k < |parts| :: Carries(l, parts, k)
  }

  // Part `k` is as full as it can be: exactly full, or stopped where a paragraph ended.
  predicate Filled(l: Limits, parts: seq<Part>, k: nat)
    requires k + 1 < |parts|
  {
    |Render(parts[k])| == l.maxChars || Breaks(parts[k], parts[k + 1])
  }

  /** `cuts` explains `parts` as a lossless, greedy, overlapping split of the paragraphs `ps`. */
  predicate Splits(l: Limits, ps: seq<string>, parts: seq<string>, cuts: seq<Part>) {
    && |cuts| == |parts|
    && (forall k | 0 <= k < |parts| :: parts[k] == Render(cuts[k]) && 0 < |parts[k]| <= l.maxChars && Ordered(cuts[k]))
    // each later part starts with the last `overlap` characters of the one before it
    && Chained(l, cuts)
    // dropping carried tails and separators gives back every paragraph
    && (forall i | 0 <= i < |ps| :: TextOf(Flatten(cuts), i) == ps[i])
    && InOrder(Flatten(cuts))
    && (forall j | 0 <= j < |Flatten(cuts)| :: Flatten(cuts)[j].paragraph < |ps|)
    // every part but the last is as full as it can be
    && (forall k | 0 <= k < |cuts| - 1 :: Closed(l, cuts[k]))
    && (forall k | 0 <= k < |cuts| - 1 :: Filled(l, cuts, k))
    // and with an overlap, a full part is always followed by one that carries its tail
    && (parts != [] && l.overlap > 0 ==> |parts[|parts| - 1]| < l.maxChars)
  }

  // ---------------------------------------------------------------- lemmas on pieces

  lemma FlattenSnoc(parts: seq<Part>, p: Part)
    ensures Flatten(parts + [p]) == Flatten(parts) + p.pieces
  {
    assert (parts + [p])[..|parts|] == parts;
  }

  lemma TextOfSnoc(pieces: seq<Piece>, p: Piece, i: nat)
    ensures TextOf(pieces + [p], i) == TextOf(pieces, i) + if p.paragraph == i then p.text else ""
  {
    assert (pieces + [p])[..|pieces|] == pieces;
  }

  lemma CharsSnoc(pieces: seq<Piece>, p: Piece)
    ensures Chars(pieces + [p]) == Chars(pieces) + |p.text|
  {
    assert (pieces + [p])[..|pieces|] == pieces;
  }

  lemma {:induction false} CharsAppend(a: seq<Piece>, b: seq<Piece>)
    ensures Chars(a + b) == Chars(a) + Chars(b)
    decreases |b|
  {
    if b == [] {
      assert a + b == a;
    } else {
      var front := b[..|b| - 1];
      CharsAppend(a, front);
      CharsSnoc(a + front, b[|b| - 1]);
      assert a + b == (a + front) + [b[|b| - 1]];
    }
  }

  // Separators at most triple the fresh text of a part, since no piece is empty.
  lemma {:induction false} RenderLength(p: Part)
    requires forall j | 0 <= j < |p.pieces| :: p.pieces[j].text != ""
    ensures |Render(p)| <= |p.carry| + 3 * Chars(p.pieces)
    decreases |p.pieces|
  {
    if p.pieces != [] {
      RenderLength(Part(p.carry, p.pieces[..|p.pieces| - 1]));
    }
  }

  lemma {:induction false} RenderStartsWithCarry(p: Part)
    ensures p.carry <= Render(p)
    decreases |p.pieces|
  {
    if p.pieces != [] {
      RenderStartsWithCarry(Part(p.carry, p.pieces[..|p.pieces| - 1]));
    }
  }

  // ---------------------------------------------------------------- the loop invariant

  function Pieces(s: Cursor): seq<Piece> {
    Flatten(s.parts) + s.current.pieces
  }

  // The text cut from a paragraph is all of it, what does not remain of it, or nothing yet.
  predicate Cuts(paragraph: string, text: string, i: nat, loaded: nat, remaining: string) {
    if i + 1 < loaded then text == paragraph
    else if i + 1 == loaded then text + remaining == paragraph
    else text == ""
  }

  predicate Kept(ps: seq<string>, s: Cursor, i: nat)
    requires i < |ps|
  {
    Cuts(ps[i], TextOf(Pieces(s), i), i, s.loaded, s.remaining)
  }

  predicate TextKept(ps: seq<string>, s: Cursor) {
    forall i | 0 <= i < |ps| :: Kept(ps, s, i)
  }

  predicate OrderKept(s: Cursor) {
    && InOrder(Pieces(s))
    && (forall j | 0 <= j < |Pieces(s)| :: Pieces(s)[j].paragraph < s.loaded)
  }

  // The paragraph being split has no piece in the buffer yet.
  predicate BufferOpen(s: Cursor) {
    s.remaining != "" ==> forall j | 0 <= j < |s.current.pieces| :: s.current.pieces[j].paragraph < s.loaded - 1
  }

  predicate BufferShort(l: Limits, s: Cursor) {
    && |Render(s.current)| < l.maxChars
    && (s.current.pieces == [] ==> Render(s.current) == s.current.carry)
    && (s.current.pieces != [] ==> Render(s.current) != "")
  }

  predicate ShapesKept(l: Limits, s: Cursor) {
    && (forall k | 0 <= k < |s.parts| :: Closed(l, s.parts[k]) && Ordered(s.parts[k]))
    && Ordered(s.current)
    && Chained(l, s.parts + [s.current])
  }

  predicate GreedyKept(l: Limits, s: Cursor) {
    && (forall k | 0 <= k < |s.parts| - 1 :: Filled(l, s.parts, k))
    && (s.parts != [] ==>
          var last := s.parts[|s.parts| - 1];
          || |Render(last)| == l.maxChars
          || Breaks(last, s.current)
          || (s.current.pieces == [] && s.remaining != "" && last.pieces != []
              && last.pieces[|last.pieces| - 1].paragraph < s.loaded - 1))
  }

  predicate CountKept(l: Limits, ps: seq<string>, s: Cursor)
    requires s.loaded <= |ps|
  {
    && Chars(Pieces(s)) + |s.remaining| == TotalLength(ps[..s.loaded])
    && |s.parts| * (l.maxChars - 2 - l.overlap) <= 3 * Chars(Flatten(s.parts))
  }

  predicate Tallied(l: Limits, ps: seq<string>, s: Cursor) {
    && s.loaded <= |ps| && |s.current.carry| <= l.overlap
    && TextKept(ps, s) && OrderKept(s) && ShapesKept(l, s) && GreedyKept(l, s) && CountKept(l, ps, s)
  }

  predicate Accounted(l: Limits, ps: seq<string>, s: Cursor) {
    Progresses(l, ps, s) && Tallied(l, ps, s) && BufferOpen(s) && BufferShort(l, s)
  }

  // ---------------------------------------------------------------- flushing keeps it

  lemma FlushPieces(l: Limits, s: Cursor)
    ensures Pieces(Flush(l, s)) == Pieces(s)
  {
    FlattenSnoc(s.parts, s.current);
  }

  lemma FlushText(l: Limits, ps: seq<string>, s: Cursor)
    requires TextKept(ps, s) && OrderKept(s)
    ensures TextKept(ps, Flush(l, s)) && OrderKept(Flush(l, s)) && BufferOpen(Flush(l, s))
  {
    FlushPieces(l, s);
    var f := Flush(l, s);
    forall i | 0 <= i < |ps| ensures Kept(ps, f, i) {
      assert Kept(ps, s, i);
    }
  }

  lemma FlushShapes(l: Limits, s: Cursor)
    requires ShapesKept(l, s) && Closed(l, s.current)
    ensures ShapesKept(l, Flush(l, s))
  {
    var f := Flush(l, s);
    var all, all' := s.parts + [s.current], f.parts + [f.current];
    forall k | 0 <= k < |all'| ensures Carries(l, all', k) {
      if k < |all| {
        assert Carries(l, all, k);
      }
    }
  }

  lemma FlushGreedy(l: Limits, s: Cursor)
    requires GreedyKept(l, s) && s.current.pieces != []
    requires |Render(s.current)| == l.maxChars || (s.remaining != "" && BufferOpen(s))
    ensures GreedyKept(l, Flush(l, s))
  {
    var f := Flush(l, s);
    forall k | 0 <= k < |f.parts| - 1 ensures Filled(l, f.parts, k) {
      if k < |s.parts| - 1 {
        assert Filled(l, s.parts, k);
      }
    }
  }

  lemma OneMore(n: int, k: int)
    ensures (n + 1) * k == n * k + k
  {
  }

  lemma NeverPositive(n: nat, k: int)
    requires k < 0
    ensures n * k <= 0
  {
  }

  lemma FlushCount(l: Limits, ps: seq<string>, s: Cursor)
    requires s.loaded <= |ps| && CountKept(l, ps, s)
    requires Ordered(s.current) && |s.current.carry| <= l.overlap && l.maxChars - 2 <= |Render(s.current)|
    ensures CountKept(l, ps, Flush(l, s))
  {
    FlushPieces(l, s);
    FlattenSnoc(s.parts, s.current);
    CharsAppend(Flatten(s.parts), s.current.pieces);
    RenderLength(s.current);
    var k := l.maxChars - 2 - l.overlap;
    OneMore(|s.parts|, k);
  }

  // ---------------------------------------------------------------- taking keeps it

  lemma TakePieces(l: Limits, s: Cursor)
    requires s.loaded > 0 && Room(l, Render(s.current)) > 0
    ensures var n := Cut(s.remaining, Room(l, Render(s.current)));
            Pieces(Take(l, s)) == Pieces(s) + [Piece(s.loaded - 1, s.remaining[..n])]
  {
  }

  lemma PieceText(pieces: seq<Piece>, piece: Piece, i: nat)
    ensures TextOf(pieces + [piece], i)
            == (if piece.paragraph == i then TextOf(pieces, i) + piece.text else TextOf(pieces, i))
  {
    TextOfSnoc(pieces, piece, i);
  }

  lemma OneMoreCut(paragraph: string, text: string, i: nat, loaded: nat, remaining: string, n: nat)
    requires Cuts(paragraph, text, i, loaded, remaining) && n <= |remaining|
    ensures Cuts(paragraph, if i + 1 == loaded then text + remaining[..n] else text, i, loaded, remaining[n..])
  {
    if i + 1 == loaded {
      assert (text + remaining[..n]) + remaining[n..] == text + remaining;
    }
  }

  lemma TakeKept(l: Limits, ps: seq<string>, s: Cursor, i: nat)
    requires WellPlaced(ps, s) && s.remaining != "" && Room(l, Render(s.current)) > 0 && i < |ps| && Kept(ps, s, i)
    ensures Kept(ps, Take(l, s), i)
  {
    var n := Cut(s.remaining, Room(l, Render(s.current)));
    TakePieces(l, s);
    PieceText(Pieces(s), Piece(s.loaded - 1, s.remaining[..n]), i);
    OneMoreCut(ps[i], TextOf(Pieces(s), i), i, s.loaded, s.remaining, n);
  }

  lemma TakeText(l: Limits, ps: seq<string>, s: Cursor)
    requires WellPlaced(ps, s) && s.remaining != "" && Room(l, Render(s.current)) > 0 && TextKept(ps, s)
    ensures TextKept(ps, Take(l, s))
  {
    forall i | 0 <= i < |ps| ensures Kept(ps, Take(l, s), i) {
      TakeKept(l, ps, s, i);
    }
  }

  lemma TakeOrder(l: Limits, s: Cursor)
    requires s.loaded > 0 && Room(l, Render(s.current)) > 0 && OrderKept(s)
    ensures OrderKept(Take(l, s))
  {
    TakePieces(l, s);
    OneMoreInOrder(Pieces(s), Piece(s.loaded - 1, s.remaining[..Cut(s.remaining, Room(l, Render(s.current)))]),
        s.loaded);
  }

  lemma OneMoreInOrder(pieces: seq<Piece>, piece: Piece, loaded: nat)
    requires InOrder(pieces) && forall j | 0 <= j < |pieces| :: pieces[j].paragraph < loaded
    requires piece.paragraph + 1 == loaded
    ensures InOrder(pieces + [piece]) && forall j | 0 <= j < |pieces + [piece]| ::
            (pieces + [piece])[j].paragraph < loaded
  {
  }

  lemma TakeShapes(l: Limits, s: Cursor)
    requires s.loaded > 0 && s.remaining != "" && Room(l, Render(s.current)) > 0
    requires ShapesKept(l, s) && BufferOpen(s)
    ensures ShapesKept(l, Take(l, s))
  {
    var t := Take(l, s);
    var all, all' := s.parts + [s.current], t.parts + [t.current];
    forall k | 0 <= k < |all'| ensures Carries(l, all', k) {
      assert Carries(l, all, k);
    }
  }

  lemma TakeGreedy(l: Limits, s: Cursor)
    requires s.loaded > 0 && s.remaining != "" && Room(l, Render(s.current)) > 0
    requires GreedyKept(l, s)
    ensures GreedyKept(l, Take(l, s))
  {
  }

  lemma TakeCount(l: Limits, ps: seq<string>, s: Cursor)
    requires WellPlaced(ps, s) && s.remaining != "" && Room(l, Render(s.current)) > 0 && CountKept(l, ps, s)
    ensures CountKept(l, ps, Take(l, s))
  {
    TakePieces(l, s);
    var n := Cut(s.remaining, Room(l, Render(s.current)));
    CharsSnoc(Pieces(s), Piece(s.loaded - 1, s.remaining[..n]));
  }

  // ---------------------------------------------------------------- the branches of the loop

  lemma OneMoreLoaded(paragraph: string, text: string, i: nat, loaded: nat, next: string)
    requires Cuts(paragraph, text, i, loaded, "") && (i == loaded ==> next == paragraph)
    ensures Cuts(paragraph, text, i, loaded + 1, next)
  {
    assert text + "" == text && "" + paragraph == paragraph;
  }

  lemma LoadText(ps: seq<string>, s: Cursor)
    requires s.remaining == "" && s.loaded < |ps| && TextKept(ps, s)
    ensures TextKept(ps, Load(ps, s))
  {
    var t := Load(ps, s);
    forall i | 0 <= i < |ps| ensures Kept(ps, t, i) {
      assert Kept(ps, s, i);
      OneMoreLoaded(ps[i], TextOf(Pieces(s), i), i, s.loaded, ps[s.loaded]);
    }
  }

  lemma LoadBuffer(ps: seq<string>, s: Cursor)
    requires s.loaded < |ps| && OrderKept(s)
    ensures OrderKept(Load(ps, s)) && BufferOpen(Load(ps, s))
  {
    forall j | 0 <= j < |s.current.pieces| ensures s.current.pieces[j].paragraph < s.loaded {
      assert Pieces(s)[|Flatten(s.parts)| + j] == s.current.pieces[j];
    }
  }

  lemma LoadKeeps(l: Limits, ps: seq<string>, s: Cursor)
    requires Paragraphs(ps) && Accounted(l, ps, s) && s.remaining == "" && s.loaded < |ps|
    ensures Accounted(l, ps, Load(ps, s))
  {
    StepProgresses(l, ps, s);
    LoadText(ps, s);
    LoadBuffer(ps, s);
    LoadShapes(l, ps, s);
    LoadCount(l, ps, s);
  }

  lemma LoadShapes(l: Limits, ps: seq<string>, s: Cursor)
    requires s.remaining == "" && s.loaded < |ps| && ShapesKept(l, s) && GreedyKept(l, s)
    ensures ShapesKept(l, Load(ps, s)) && GreedyKept(l, Load(ps, s))
  {
  }

  lemma LoadCount(l: Limits, ps: seq<string>, s: Cursor)
    requires s.remaining == "" && s.loaded < |ps| && CountKept(l, ps, s)
    ensures CountKept(l, ps, Load(ps, s))
  {
    assert ps[..s.loaded + 1][..s.loaded] == ps[..s.loaded];
  }

  lemma FullBufferHasPieces(l: Limits, ps: seq<string>, s: Cursor)
    requires Paragraphs(ps) && Accounted(l, ps, s) && s.remaining != "" && Room(l, Render(s.current)) <= 0
    ensures s.current.pieces != [] && Closed(l, s.current)
  {
  }

  lemma FlushTallies(l: Limits, ps: seq<string>, s: Cursor)
    requires Tallied(l, ps, s) && Closed(l, s.current)
    requires |Render(s.current)| == l.maxChars || (s.remaining != "" && BufferOpen(s))
    ensures Tallied(l, ps, Flush(l, s)) && BufferOpen(Flush(l, s))
  {
    FlushText(l, ps, s);
    FlushShapes(l, s);
    FlushGreedy(l, s);
    FlushCount(l, ps, s);
  }

  lemma FlushShortens(l: Limits, s: Cursor)
    requires Accepted(l)
    ensures BufferShort(l, Flush(l, s))
  {
  }

  lemma FlushKeeps(l: Limits, ps: seq<string>, s: Cursor)
    requires Paragraphs(ps) && Accounted(l, ps, s) && s.remaining != "" && Room(l, Render(s.current)) <= 0
    ensures Accounted(l, ps, Flush(l, s))
  {
    StepProgresses(l, ps, s);
    FullBufferHasPieces(l, ps, s);
    FlushTallies(l, ps, s);
  }

  lemma TakeTallies(l: Limits, ps: seq<string>, s: Cursor)
    requires WellPlaced(ps, s) && s.remaining != "" && Room(l, Render(s.current)) > 0
    requires Tallied(l, ps, s) && BufferOpen(s)
    ensures Tallied(l, ps, Take(l, s))
  {
    TakeText(l, ps, s);
    TakeOrder(l, s);
    TakeShapes(l, s);
    TakeGreedy(l, s);
    TakeCount(l, ps, s);
  }

  lemma TakeKeeps(l: Limits, ps: seq<string>, s: Cursor)
    requires Paragraphs(ps) && Accounted(l, ps, s) && s.remaining != "" && Room(l, Render(s.current)) > 0
    ensures Accounted(l, ps, Step(l, ps, s))
  {
    var t := Take(l, s);
    StepProgresses(l, ps, s);
    TakeProjects(l, ps, s);
    TakeTallies(l, ps, s);
    if |Render(t.current)| >= l.maxChars {
      FlushTallies(l, ps, t);
      FlushShortens(l, t);
    }
  }

  // ---------------------------------------------------------------- the result

  function Texts(parts: seq<Part>): (texts: seq<string>)
    ensures |texts| == |parts|
    ensures forall k | 0 <= k < |parts| :: texts[k] == Render(parts[k])
  {
    if parts == [] then [] else Texts(parts[..|parts| - 1]) + [Render(parts[|parts| - 1])]
  }

  lemma TextsSnoc(parts: seq<Part>, p: Part)
    ensures Texts(parts + [p]) == Texts(parts) + [Render(p)]
  {
    assert (parts + [p])[..|parts|] == parts;
  }

  function Finished(s: Cursor): seq<Part> {
    if Render(s.current) == "" then s.parts else s.parts + [s.current]
  }

  // The number of parts is linear in the text: each closed part holds its share of fresh characters.
  predicate Economical(l: Limits, ps: seq<string>, count: nat) {
    count > 0 ==> (count - 1) * (l.maxChars - 2 - l.overlap) <= 3 * TotalLength(ps)
  }

  lemma EmptyBufferMeansNoOverlap(l: Limits, s: Cursor)
    requires Accepted(l) && ShapesKept(l, s) && BufferShort(l, s) && Render(s.current) == "" && s.parts != []
    ensures l.overlap == 0
  {
    var all := s.parts + [s.current];
    assert Carries(l, all, |s.parts|);
    assert Closed(l, s.parts[|s.parts| - 1]);
  }

  lemma FinishedChain(l: Limits, s: Cursor)
    requires ShapesKept(l, s)
    ensures Chained(l, Finished(s)) && (forall k | 0 <= k < |Finished(s)| :: Ordered(Finished(s)[k]))
  {
    var all, cuts := s.parts + [s.current], Finished(s);
    forall k | 0 <= k < |cuts| ensures Carries(l, cuts, k) {
      assert Carries(l, all, k);
    }
  }

  lemma FinishedGreedy(l: Limits, s: Cursor)
    requires ShapesKept(l, s) && GreedyKept(l, s) && s.remaining == "" && BufferShort(l, s)
    ensures forall k | 0 <= k < |Finished(s)| - 1 :: Closed(l, Finished(s)[k])
    ensures forall k | 0 <= k < |Finished(s)| - 1 :: Filled(l, Finished(s), k)
  {
    var cuts := Finished(s);
    forall k | 0 <= k < |cuts| - 1 ensures Filled(l, cuts, k) {
      if k < |s.parts| - 1 {
        assert Filled(l, s.parts, k);
      }
    }
  }

  lemma FinishedText(l: Limits, ps: seq<string>, s: Cursor)
    requires TextKept(ps, s) && BufferShort(l, s) && Halted(ps, s) && s.loaded <= |ps|
    ensures Flatten(Finished(s)) == Pieces(s)
    ensures forall i | 0 <= i < |ps| :: TextOf(Flatten(Finished(s)), i) == ps[i]
  {
    FlattenSnoc(s.parts, s.current);
    assert Render(s.current) == "" ==> s.current.pieces == [];
    forall i | 0 <= i < |ps| ensures TextOf(Pieces(s), i) == ps[i] {
      assert Kept(ps, s, i);
    }
  }

  lemma FinishedSplits(l: Limits, ps: seq<string>, s: Cursor)
    requires Accounted(l, ps, s) && Halted(ps, s)
    ensures Splits(l, ps, Texts(Finished(s)), Finished(s))
  {
    FinishedChain(l, s);
    FinishedGreedy(l, s);
    FinishedText(l, ps, s);
    var cuts := Finished(s);
    assert forall k | 0 <= k < |cuts| :: 0 < |Render(cuts[k])| <= l.maxChars;
    if Render(s.current) == "" && s.parts != [] {
      EmptyBufferMeansNoOverlap(l, s);
    }
  }

  lemma FinishedCount(l: Limits, ps: seq<string>, s: Cursor)
    requires Accounted(l, ps, s) && Halted(ps, s)
    ensures Economical(l, ps, |Finished(s)|)
  {
    CharsAppend(Flatten(s.parts), s.current.pieces);
    assert ps[..s.loaded] == ps;
    var k := l.maxChars - 2 - l.overlap;
    OneMore(|s.parts| - 1, k);
    if k < 0 && s.parts != [] {
      NeverPositive(|s.parts| - 1, k);
    }
  }

  lemma StepKeeps(l: Limits, ps: seq<string>, s: Cursor)
    requires Paragraphs(ps) && Accounted(l, ps, s) && !Halted(ps, s)
    ensures Accounted(l, ps, Step(l, ps, s))
  {
    if s.remaining == "" {
      LoadKeeps(l, ps, s);
    } else if Room(l, Render(s.current)) <= 0 {
      FlushKeeps(l, ps, s);
    } else {
      TakeKeeps(l, ps, s);
    }
  }

  predicate Splittable(l: Limits, ps: seq<string>) {
    && Accepted(l) && Paragraphs(ps)
    && (l.overlap + 3 <= l.maxChars || JoinedLength(ps) <= l.maxChars)
  }

  // `s` is where the loop is after `n` iterations.
  predicate Reached(l: Limits, ps: seq<string>, s: Cursor, n: nat) {
    s == Iterate(l, ps, START, n)
  }

  lemma {:induction false} OneMoreStep(l: Limits, ps: seq<string>, s: Cursor, n: nat)
    requires WellPlaced(ps, s) && !Halted(ps, Iterate(l, ps, s, n))
    ensures Iterate(l, ps, s, n + 1) == Step(l, ps, Iterate(l, ps, s, n))
    decreases n
  {
    if n > 0 {
      OneMoreStep(l, ps, Step(l, ps, s), n - 1);
    }
  }

  lemma StartText(ps: seq<string>)
    ensures TextKept(ps, START) && OrderKept(START)
  {
    assert Pieces(START) == [];
  }

  lemma StartShapes(l: Limits)
    ensures ShapesKept(l, START) && GreedyKept(l, START)
  {
  }

  lemma StartCount(l: Limits, ps: seq<string>)
    ensures CountKept(l, ps, START)
  {
  }

  lemma StartKeeps(l: Limits, ps: seq<string>)
    requires Splittable(l, ps)
    ensures Accounted(l, ps, START)
  {
    StartProjects(ps);
    StartText(ps);
    StartShapes(l);
    StartCount(l, ps);
  }

  lemma {:induction false} ReachedKeeps(l: Limits, ps: seq<string>, s: Cursor, n: nat)
    requires Splittable(l, ps) && Reached(l, ps, s, n)
    ensures Accounted(l, ps, s)
    decreases n
  {
    if n == 0 {
      StartKeeps(l, ps);
    } else {
      var before := Iterate(l, ps, START, n - 1);
      ReachedKeeps(l, ps, before, n - 1);
      if !Halted(ps, before) {
        OneMoreStep(l, ps, START, n - 1);
        StepKeeps(l, ps, before);
      } else {
        StaysHalted(l, ps, START, n - 1);
      }
    }
  }

  lemma {:induction false} StaysHalted(l: Limits, ps: seq<string>, s: Cursor, n: nat)
    requires WellPlaced(ps, s) && Halted(ps, Iterate(l, ps, s, n))
    ensures Iterate(l, ps, s, n + 1) == Iterate(l, ps, s, n)
    decreases n
  {
    if n > 0 && !Halted(ps, s) {
      StaysHalted(l, ps, Step(l, ps, s), n - 1);
    }
  }

  lemma LoadStep(l: Limits, ps: seq<string>, s: Cursor, n: nat) returns (u: Cursor)
    requires Reached(l, ps, s, n) && s.remaining == "" && s.loaded < |ps|
    ensures Reached(l, ps, u, n + 1) && WellPlaced(ps, u)
    ensures u.remaining == ps[s.loaded] && u.loaded == s.loaded + 1 && u.parts == s.parts && u.current == s.current
  {
    OneMoreStep(l, ps, START, n);
    u := Load(ps, s);
  }

  lemma FlushedText(l: Limits, s: Cursor)
    ensures Texts(Flush(l, s).parts) == Texts(s.parts) + [Render(s.current)]
    ensures Render(Flush(l, s).current) == Tail(Render(s.current), l.overlap)
  {
    TextsSnoc(s.parts, s.current);
  }

  // Flushing makes room, so the inner loop's measure falls.
  lemma FlushStep(l: Limits, ps: seq<string>, s: Cursor, n: nat) returns (u: Cursor)
    requires Splittable(l, ps) && Reached(l, ps, s, n) && WellPlaced(ps, s)
    requires s.remaining != "" && Room(l, Render(s.current)) <= 0
    ensures Reached(l, ps, u, n + 1) && WellPlaced(ps, u)
    ensures u.remaining == s.remaining && u.loaded == s.loaded
    ensures Texts(u.parts) == Texts(s.parts) + [Render(s.current)]
    ensures Render(u.current) == Tail(Render(s.current), l.overlap) && Room(l, Render(u.current)) > 0
  {
    u := Flush(l, s);
    FlushedText(l, s);
    OneMoreStep(l, ps, START, n);
    RoomAfterFlush(l, ps, s, n);
  }

  lemma RoomAfterFlush(l: Limits, ps: seq<string>, s: Cursor, n: nat)
    requires Splittable(l, ps) && Reached(l, ps, s, n) && WellPlaced(ps, s)
    requires s.remaining != "" && Room(l, Render(s.current)) <= 0
    ensures Room(l, Tail(Render(s.current), l.overlap)) > 0
  {
    ReachedKeeps(l, ps, s, n);
  }

  lemma TakeStep(l: Limits, ps: seq<string>, s: Cursor, n: nat) returns (u: Cursor)
    requires Reached(l, ps, s, n) && WellPlaced(ps, s)
    requires s.remaining != "" && Room(l, Render(s.current)) > 0
    ensures var cut := Cut(s.remaining, Room(l, Render(s.current)));
            var grown := Join(Render(s.current), s.remaining[..cut]);
            && Reached(l, ps, u, n + 1) && WellPlaced(ps, u)
            && u.remaining == s.remaining[cut..] && u.loaded == s.loaded
            && Texts(u.parts) == (if |grown| >= l.maxChars then Texts(s.parts) + [grown] else Texts(s.parts))
            && Render(u.current) == (if |grown| >= l.maxChars then Tail(grown, l.overlap) else grown)
  {
    u := Step(l, ps, s);
    OneMoreStep(l, ps, START, n);
    var t := Take(l, s);
    RenderExtend(s.current, Piece(s.loaded - 1, s.remaining[..Cut(s.remaining, Room(l, Render(s.current)))]));
    TextsSnoc(t.parts, t.current);
  }

  lemma HaltedResult(l: Limits, ps: seq<string>, s: Cursor, n: nat, parts: seq<string>)
    requires Splittable(l, ps) && Reached(l, ps, s, n) && Halted(ps, s)
    requires parts == Texts(s.parts) + (if Render(s.current) == "" then [] else [Render(s.current)])
    ensures Splits(l, ps, parts, Finished(s))
    ensures Economical(l, ps, |parts|)
  {
    ReachedKeeps(l, ps, s, n);
    FinishedSplits(l, ps, s);
    FinishedCount(l, ps, s);
    TextsSnoc(s.parts, s.current);
  }

  /**
   The source's loop. It is called only where it ends (see Splitter.TerminatesExactlyWhen).
   */
  method BoundedParts(l: Limits, paragraphs: seq<string>) returns (parts: seq<string>, ghost cuts: seq<Part>)
    requires Accepted(l) && Paragraphs(paragraphs)
    requires l.overlap + 3 <= l.maxChars || JoinedLength(paragraphs) <= l.maxChars
    ensures Splits(l, paragraphs, parts, cuts)
    ensures Economical(l, paragraphs, |parts|)
  {
    parts := [];
    var current := "";
    ghost var s, n: nat := START, 0;
    for i := 0 to |paragraphs|
      invariant Reached(l, paragraphs, s, n) && WellPlaced(paragraphs, s)
      invariant s.remaining == "" && s.loaded == i
      invariant parts == Texts(s.parts) && current == Render(s.current)
    {
      var remaining := paragraphs[i];
      ghost var loaded := LoadStep(l, paragraphs, s, n);
      s, n := loaded, n + 1;
      while remaining != ""
        invariant Reached(l, paragraphs, s, n) && WellPlaced(paragraphs, s)
        invariant s.remaining == remaining && s.loaded == i + 1
        invariant parts == Texts(s.parts) && current == Render(s.current)
        decreases |remaining|, Room(l, current) <= 0
      {
        var available := l.maxChars - |current| - (if current != "" then 2 else 0);
        if available <= 0 {
          ghost var flushed := FlushStep(l, paragraphs, s, n);
          parts := parts + [current];
          current := LastChars(current, l.overlap);
          s, n := flushed, n + 1;
          continue;
        }
        var piece := remaining[..if available <= |remaining| then available else |remaining|];
        ghost var taken := TakeStep(l, paragraphs, s, n);
        current := if current != "" then current + "\n\n" + piece else piece;
        remaining := remaining[|piece|..];
        if |current| >= l.maxChars {
          parts := parts + [current];
          current := LastChars(current, l.overlap);
        }
        s, n := taken, n + 1;
      }
    }
    cuts := Finished(s);
    if current != "" {
      parts := parts + [current];
    }
    HaltedResult(l, paragraphs, s, n, parts);
  }

  // The last `overlap` characters, none when no overlap is configured.
  method LastChars(current: string, overlap: nat) returns (tail: string)
    ensures tail == Tail(current, overlap)
  {
    if overlap != 0 {
      tail := current[if overlap < |current| then |current| - overlap else 0..];
    } else {
      tail := "";
    }
  }
}
