/**
 The description of a lossless greedy split leaves no choice: one list of paragraphs has one split
 (packages/retrieval/chunking.py, `_bounded_parts`).
 */
module UniqueSplit {
  import opened Splitter
  import opened BoundedSplitting

  // ---------------------------------------------------------------- pieces that make up the paragraphs

  predicate Explains(ps: seq<string>, pieces: seq<Piece>) {
    && InOrder(pieces)
    && (forall j | 0 <= j < |pieces| :: pieces[j].paragraph < |ps| && pieces[j].text != "")
    && (forall i | 0 <= i < |ps| :: TextOf(pieces, i) == ps[i])
  }

  lemma {:induction false} TextOfAppend(a: seq<Piece>, b: seq<Piece>, i: nat)
    ensures TextOf(a + b, i) == TextOf(a, i) + TextOf(b, i)
    decreases |b|
  {
    if b == [] {
      assert a + b == a;
    } else {
      var front, last := b[..|b| - 1], b[|b| - 1];
      assert a + b == (a + front) + [last] && b == front + [last];
      TextOfAppend(a, front, i);
      TextOfSnoc(a + front, last, i);
      TextOfSnoc(front, last, i);
    }
  }

  lemma {:induction false} TextOfOthers(pieces: seq<Piece>, i: nat)
    requires forall j | 0 <= j < |pieces| :: pieces[j].paragraph != i
    ensures TextOf(pieces, i) == ""
    decreases |pieces|
  {
    if pieces != [] {
      TextOfOthers(pieces[..|pieces| - 1], i);
    }
  }

  lemma TextAround(before: seq<Piece>, p: Piece, after: seq<Piece>, i: nat)
    ensures TextOf(before + [p] + after, i)
            == TextOf(before, i) + (if p.paragraph == i then p.text else "") + TextOf(after, i)
  {
    TextOfAppend(before + [p], after, i);
    TextOfSnoc(before, p, i);
  }

  // A piece continues the text of its own paragraph.
  lemma PieceContinues(ps: seq<string>, before: seq<Piece>, p: Piece, after: seq<Piece>)
    requires Explains(ps, before + [p] + after)
    ensures p.text != "" && p.paragraph < |ps| && TextOf(before, p.paragraph) + p.text <= ps[p.paragraph]
  {
    assert (before + [p] + after)[|before|] == p;
    TextAround(before, p, after, p.paragraph);
  }

  // It comes after all the text of every earlier paragraph.
  lemma EarlierIsComplete(ps: seq<string>, before: seq<Piece>, p: Piece, after: seq<Piece>, i: nat)
    requires Explains(ps, before + [p] + after) && i < p.paragraph
    ensures i < |ps| && TextOf(before, i) == ps[i]
  {
    var all := before + [p] + after;
    assert all[|before|] == p;
    forall j | 0 <= j < |after| ensures after[j].paragraph != i {
      assert all[|before| + 1 + j] == after[j];
    }
    TextAround(before, p, after, i);
    TextOfOthers(after, i);
  }

  // It ends its paragraph when nothing more of it follows.
  lemma PieceEnds(ps: seq<string>, before: seq<Piece>, p: Piece, after: seq<Piece>)
    requires Explains(ps, before + [p] + after) && (after == [] || after[0].paragraph > p.paragraph)
    ensures p.paragraph < |ps| && TextOf(before, p.paragraph) + p.text == ps[p.paragraph]
  {
    var all := before + [p] + after;
    assert all[|before|] == p;
    forall j | 0 <= j < |after| ensures after[j].paragraph != p.paragraph {
      assert all[|before| + 1] == after[0] && all[|before| + 1 + j] == after[j];
    }
    TextAround(before, p, after, p.paragraph);
    TextOfOthers(after, p.paragraph);
  }

  // After the same pieces the next one is cut from the same place.
  lemma SamePlace(ps: seq<string>, before: seq<Piece>, p: Piece, after: seq<Piece>, q: Piece, rest: seq<Piece>)
    requires Explains(ps, before + [p] + after) && Explains(ps, before + [q] + rest)
    ensures p.paragraph == q.paragraph && (|p.text| == |q.text| ==> p == q)
  {
    PieceContinues(ps, before, p, after);
    PieceContinues(ps, before, q, rest);
    if p.paragraph < q.paragraph {
      EarlierIsComplete(ps, before, q, rest, p.paragraph);
    } else if q.paragraph < p.paragraph {
      EarlierIsComplete(ps, before, p, after, q.paragraph);
    }
    var text, used := ps[p.paragraph], |TextOf(before, p.paragraph)|;
    assert p.text == text[used..used + |p.text|];
    if p.paragraph == q.paragraph {
      assert q.text == text[used..used + |q.text|];
    }
  }

  lemma ShorterContinues(ps: seq<string>, before: seq<Piece>, p: Piece, after: seq<Piece>, q: Piece, rest: seq<Piece>)
    requires Explains(ps, before + [p] + after) && Explains(ps, before + [q] + rest)
    ensures |p.text| < |q.text| ==> after != [] && after[0].paragraph <= p.paragraph
  {
    SamePlace(ps, before, p, after, q, rest);
    PieceContinues(ps, before, q, rest);
    if after == [] || after[0].paragraph > p.paragraph {
      PieceEnds(ps, before, p, after);
    }
  }

  // Pieces that make up all paragraphs cannot be continued.
  lemma NothingFollows(ps: seq<string>, pieces: seq<Piece>, rest: seq<Piece>)
    requires Explains(ps, pieces) && Explains(ps, pieces + rest)
    ensures rest == []
  {
    if rest != [] {
      assert pieces + [rest[0]] + rest[1..] == pieces + rest;
      PieceContinues(ps, pieces, rest[0], rest[1..]);
    }
  }

  lemma NothingBetween(ps: seq<string>, before: seq<Piece>, pieces: seq<Piece>, after: seq<Piece>)
    requires Explains(ps, before) && Explains(ps, before + pieces + after)
    ensures pieces == []
  {
    assert before + pieces + after == before + (pieces + after);
    NothingFollows(ps, before, pieces + after);
  }

  lemma Around(before: seq<Piece>, pieces: seq<Piece>, after: seq<Piece>, n: nat)
    requires n < |pieces|
    ensures before + pieces + after == (before + pieces[..n]) + [pieces[n]] + (pieces[n + 1..] + after)
  {
    assert pieces == pieces[..n] + [pieces[n]] + pieces[n + 1..];
  }

  // ---------------------------------------------------------------- one part

  lemma {:induction false} RenderGrows(carry: string, front: seq<Piece>, q: Piece, rest: seq<Piece>)
    ensures var before := Render(Part(carry, front));
            |Render(Part(carry, front + [q] + rest))| >= |before| + Gap(before) + |q.text|
    decreases |rest|
  {
    if rest == [] {
      assert front + [q] + rest == front + [q];
      RenderExtend(Part(carry, front), q);
    } else {
      var less, last := rest[..|rest| - 1], rest[|rest| - 1];
      RenderGrows(carry, front, q, less);
      RenderExtend(Part(carry, front + [q] + less), last);
      assert front + [q] + rest == (front + [q] + less) + [last];
    }
  }

  // A part ends with the text, or where nothing more fits.
  predicate Stops(l: Limits, p: Part, after: seq<Piece>) {
    after == [] || (Closed(l, p)
        && (|Render(p)| == l.maxChars || after[0].paragraph > p.pieces[|p.pieces| - 1].paragraph))
  }

  predicate Fills(l: Limits, ps: seq<string>, before: seq<Piece>, p: Part, after: seq<Piece>) {
    && Explains(ps, before + p.pieces + after) && Ordered(p) && |Render(p)| <= l.maxChars && Stops(l, p, after)
  }

  // If `a` ends with a piece shorter than the one `b` has there, `b` is the longer part.
  lemma LongerLast(a: Part, b: Part)
    requires a.carry == b.carry && 0 < |a.pieces| <= |b.pieces|
             && a.pieces[..|a.pieces| - 1] == b.pieces[..|a.pieces| - 1]
    ensures var n := |a.pieces| - 1;
            |a.pieces[n].text| < |b.pieces[n].text| ==> |Render(a)| < |Render(b)|
  {
    var n := |a.pieces| - 1;
    var front := a.pieces[..n];
    assert a == Extend(Part(a.carry, front), a.pieces[n]);
    RenderExtend(Part(a.carry, front), a.pieces[n]);
    assert b.pieces == front + [b.pieces[n]] + b.pieces[n + 1..];
    RenderGrows(a.carry, front, b.pieces[n], b.pieces[n + 1..]);
  }

  // Where two parts start alike, the next piece of the one is no shorter than the next piece of the other.
  lemma NoShorterPiece(l: Limits, ps: seq<string>, before: seq<Piece>, a: Part, afterA: seq<Piece>, b: Part,
                       afterB: seq<Piece>, n: nat)
    requires Fills(l, ps, before, a, afterA) && Fills(l, ps, before, b, afterB) && a.carry == b.carry
    requires n < |a.pieces| && n < |b.pieces| && a.pieces[..n] == b.pieces[..n]
    ensures a.pieces[n].paragraph == b.pieces[n].paragraph && |a.pieces[n].text| >= |b.pieces[n].text|
    ensures |a.pieces[n].text| == |b.pieces[n].text| ==> a.pieces[n] == b.pieces[n]
  {
    var front, p, q := a.pieces[..n], a.pieces[n], b.pieces[n];
    var restA, restB := a.pieces[n + 1..], b.pieces[n + 1..];
    Around(before, a.pieces, afterA, n);
    Around(before, b.pieces, afterB, n);
    SamePlace(ps, before + front, p, restA + afterA, q, restB + afterB);
    ShorterContinues(ps, before + front, p, restA + afterA, q, restB + afterB);
    if restA == [] {
      assert restA + afterA == afterA;
      LongerLast(a, b);
    } else {
      assert restA[0] == a.pieces[n + 1];
    }
  }

  lemma {:induction false} SamePieces(l: Limits, ps: seq<string>, before: seq<Piece>, a: Part, afterA: seq<Piece>,
                                      b: Part, afterB: seq<Piece>, n: nat)
    requires Fills(l, ps, before, a, afterA) && Fills(l, ps, before, b, afterB) && a.carry == b.carry
    requires n <= |a.pieces| && n <= |b.pieces|
    ensures a.pieces[..n] == b.pieces[..n]
    decreases n
  {
    if n > 0 {
      SamePieces(l, ps, before, a, afterA, b, afterB, n - 1);
      NoShorterPiece(l, ps, before, a, afterA, b, afterB, n - 1);
      NoShorterPiece(l, ps, before, b, afterB, a, afterA, n - 1);
      assert a.pieces[..n] == a.pieces[..n - 1] + [a.pieces[n - 1]];
      assert b.pieces[..n] == b.pieces[..n - 1] + [b.pieces[n - 1]];
    }
  }

  lemma MoreLength(a: Part, b: Part)
    requires a.carry == b.carry && |a.pieces| < |b.pieces| && a.pieces == b.pieces[..|a.pieces|]
    ensures |Render(b)| >= |Render(a)| + Gap(Render(a)) + |b.pieces[|a.pieces|].text|
  {
    var n := |a.pieces|;
    assert b.pieces == a.pieces + [b.pieces[n]] + b.pieces[n + 1..];
    RenderGrows(a.carry, a.pieces, b.pieces[n], b.pieces[n + 1..]);
  }

  lemma MoreText(ps: seq<string>, before: seq<Piece>, a: seq<Piece>, b: seq<Piece>, after: seq<Piece>)
    requires |a| <= |b| && a == b[..|a|] && Explains(ps, before + a + []) && Explains(ps, before + b + after)
    ensures |a| == |b|
  {
    var rest := b[|a|..] + after;
    assert before + a + [] == before + a && before + b + after == (before + a) + rest;
    NothingFollows(ps, before + a, rest);
  }

  lemma NoFewerPieces(l: Limits, ps: seq<string>, before: seq<Piece>, a: Part, afterA: seq<Piece>, b: Part,
                      afterB: seq<Piece>)
    requires Accepted(l)
    requires Fills(l, ps, before, a, afterA) && Fills(l, ps, before, b, afterB) && a.carry == b.carry
    ensures |a.pieces| >= |b.pieces|
  {
    var n := |a.pieces|;
    if n < |b.pieces| {
      SamePieces(l, ps, before, a, afterA, b, afterB, n);
      assert a.pieces[..n] == a.pieces;
      if afterA == [] {
        MoreText(ps, before, a.pieces, b.pieces, afterB);
      } else {
        MoreLength(a, b);
      }
    }
  }

  lemma SamePart(l: Limits, ps: seq<string>, before: seq<Piece>, a: Part, afterA: seq<Piece>, b: Part,
                 afterB: seq<Piece>)
    requires Accepted(l)
    requires Fills(l, ps, before, a, afterA) && Fills(l, ps, before, b, afterB) && a.carry == b.carry
    ensures a == b
  {
    NoFewerPieces(l, ps, before, a, afterA, b, afterB);
    NoFewerPieces(l, ps, before, b, afterB, a, afterA);
    SamePieces(l, ps, before, a, afterA, b, afterB, |a.pieces|);
    assert a.pieces[..|a.pieces|] == a.pieces && b.pieces[..|a.pieces|] == b.pieces;
  }

  // ---------------------------------------------------------------- the whole split

  lemma {:induction false} FlattenAppend(a: seq<Part>, b: seq<Part>)
    ensures Flatten(a + b) == Flatten(a) + Flatten(b)
    decreases |b|
  {
    if b == [] {
      assert a + b == a;
    } else {
      var front, last := b[..|b| - 1], b[|b| - 1];
      assert b == front + [last] && a + b == (a + front) + [last];
      FlattenAppend(a, front);
      FlattenSnoc(a + front, last);
      FlattenSnoc(front, last);
      assert (Flatten(a) + Flatten(front)) + last.pieces == Flatten(a) + (Flatten(front) + last.pieces);
    }
  }

  lemma FlattenAround(parts: seq<Part>, before: seq<Part>, p: Part, after: seq<Part>)
    requires parts == before + [p] + after
    ensures Flatten(parts) == Flatten(before) + p.pieces + Flatten(after)
  {
    FlattenAppend(before + [p], after);
    FlattenSnoc(before, p);
  }

  lemma CutAt(parts: seq<Part>, k: nat)
    requires k < |parts|
    ensures parts == parts[..k] + [parts[k]] + parts[k + 1..]
  {
  }

  lemma FlattenAt(parts: seq<Part>, k: nat)
    requires k < |parts|
    ensures Flatten(parts) == Flatten(parts[..k]) + parts[k].pieces + Flatten(parts[k + 1..])
  {
    CutAt(parts, k);
    FlattenAround(parts, parts[..k], parts[k], parts[k + 1..]);
  }

  lemma {:induction false} PiecesAreText(parts: seq<Part>)
    requires forall k | 0 <= k < |parts| :: Ordered(parts[k])
    ensures forall j | 0 <= j < |Flatten(parts)| :: Flatten(parts)[j].text != ""
    decreases |parts|
  {
    if parts != [] {
      PiecesAreText(parts[..|parts| - 1]);
      assert Ordered(parts[|parts| - 1]);
    }
  }

  lemma SplitExplains(l: Limits, ps: seq<string>, parts: seq<string>, cuts: seq<Part>)
    requires Splits(l, ps, parts, cuts)
    ensures Explains(ps, Flatten(cuts))
  {
    forall k | 0 <= k < |cuts| ensures Ordered(cuts[k]) {
      assert parts[k] == Render(cuts[k]);
    }
    PiecesAreText(cuts);
  }

  lemma PartFills(l: Limits, ps: seq<string>, parts: seq<string>, cuts: seq<Part>, k: nat)
    requires Splits(l, ps, parts, cuts) && k < |cuts|
    ensures Fills(l, ps, Flatten(cuts[..k]), cuts[k], Flatten(cuts[k + 1..]))
  {
    SplitExplains(l, ps, parts, cuts);
    FlattenAt(cuts, k);
    assert parts[k] == Render(cuts[k]);
    if k + 1 < |cuts| {
      assert Closed(l, cuts[k]) && Filled(l, cuts, k);
      FlattenAt(cuts[k + 1..], 0);
      assert cuts[k + 1..][0] == cuts[k + 1] && cuts[k + 1..][..0] == [];
    }
  }

  lemma SameCarry(l: Limits, a: seq<Part>, b: seq<Part>, n: nat)
    requires Chained(l, a) && Chained(l, b) && n < |a| && n < |b| && a[..n] == b[..n]
    ensures a[n].carry == b[n].carry
  {
    assert Carries(l, a, n) && Carries(l, b, n);
    if n > 0 {
      assert a[n - 1] == a[..n][n - 1] && b[n - 1] == b[..n][n - 1];
    }
  }

  lemma SameNextCut(l: Limits, ps: seq<string>, a: seq<string>, cutsA: seq<Part>, b: seq<string>, cutsB: seq<Part>,
                    n: nat)
    requires Accepted(l) && Splits(l, ps, a, cutsA) && Splits(l, ps, b, cutsB)
    requires n < |cutsA| && n < |cutsB| && cutsA[..n] == cutsB[..n]
    ensures cutsA[n] == cutsB[n]
  {
    SameCarry(l, cutsA, cutsB, n);
    PartFills(l, ps, a, cutsA, n);
    PartFills(l, ps, b, cutsB, n);
    SamePart(l, ps, Flatten(cutsA[..n]), cutsA[n], Flatten(cutsA[n + 1..]), cutsB[n], Flatten(cutsB[n + 1..]));
  }

  lemma OneMoreCut(a: seq<Part>, b: seq<Part>, k: nat)
    requires 0 < k <= |a| && k <= |b| && a[..k - 1] == b[..k - 1] && a[k - 1] == b[k - 1]
    ensures a[..k] == b[..k]
  {
    assert a[..k] == a[..k - 1] + [a[k - 1]] && b[..k] == b[..k - 1] + [b[k - 1]];
  }

  lemma {:induction false} SameCuts(l: Limits, ps: seq<string>, a: seq<string>, cutsA: seq<Part>, b: seq<string>,
                                    cutsB: seq<Part>, k: nat)
    requires Accepted(l) && Splits(l, ps, a, cutsA) && Splits(l, ps, b, cutsB)
    requires k <= |cutsA| && k <= |cutsB|
    ensures cutsA[..k] == cutsB[..k]
    decreases k
  {
    if k > 0 {
      SameCuts(l, ps, a, cutsA, b, cutsB, k - 1);
      SameNextCut(l, ps, a, cutsA, b, cutsB, k - 1);
      OneMoreCut(cutsA, cutsB, k);
    }
  }

  // A part without fresh text follows only a full part whose tail it carries.
  lemma OnlyCarries(l: Limits, ps: seq<string>, parts: seq<string>, cuts: seq<Part>, n: nat)
    requires Splits(l, ps, parts, cuts) && n < |cuts| && cuts[n].pieces == []
    ensures n > 0 && |parts[n - 1]| == l.maxChars && l.overlap > 0
  {
    assert Carries(l, cuts, n) && parts[n] == Render(cuts[n]);
    if n > 0 {
      assert Filled(l, cuts, n - 1) && parts[n - 1] == Render(cuts[n - 1]);
    }
  }

  // What one split has beyond all parts of another is without fresh text.
  lemma BeyondIsEmpty(ps: seq<string>, cuts: seq<Part>, n: nat)
    requires n < |cuts| && Explains(ps, Flatten(cuts[..n])) && Explains(ps, Flatten(cuts))
    ensures cuts[n].pieces == []
  {
    FlattenAt(cuts, n);
    NothingBetween(ps, Flatten(cuts[..n]), cuts[n].pieces, Flatten(cuts[n + 1..]));
  }

  lemma SameTexts(l: Limits, ps: seq<string>, a: seq<string>, cutsA: seq<Part>, b: seq<string>, cutsB: seq<Part>,
                  k: nat)
    requires Splits(l, ps, a, cutsA) && Splits(l, ps, b, cutsB)
    requires k <= |cutsA| && k <= |cutsB| && cutsA[..k] == cutsB[..k]
    ensures forall i | 0 <= i < k :: a[i] == b[i]
  {
    forall i | 0 <= i < k ensures a[i] == b[i] {
      assert cutsA[..k][i] == cutsA[i] && cutsB[..k][i] == cutsB[i];
    }
  }

  lemma NoFewerParts(l: Limits, ps: seq<string>, a: seq<string>, cutsA: seq<Part>, b: seq<string>, cutsB: seq<Part>)
    requires Accepted(l) && Splits(l, ps, a, cutsA) && Splits(l, ps, b, cutsB)
    ensures |cutsA| >= |cutsB|
  {
    var n := |cutsA|;
    if n < |cutsB| {
      SameCuts(l, ps, a, cutsA, b, cutsB, n);
      SameTexts(l, ps, a, cutsA, b, cutsB, n);
      assert cutsA[..n] == cutsA;
      SplitExplains(l, ps, a, cutsA);
      SplitExplains(l, ps, b, cutsB);
      BeyondIsEmpty(ps, cutsB, n);
      OnlyCarries(l, ps, b, cutsB, n);
    }
  }

  // Any two lossless greedy splits of the same paragraphs are the same, part by part and piece by piece.
  lemma SplitIsUnique(l: Limits, ps: seq<string>, a: seq<string>, cutsA: seq<Part>, b: seq<string>, cutsB: seq<Part>)
    requires Accepted(l) && Splits(l, ps, a, cutsA) && Splits(l, ps, b, cutsB)
    ensures cutsA == cutsB && a == b
  {
    NoFewerParts(l, ps, a, cutsA, b, cutsB);
    NoFewerParts(l, ps, b, cutsB, a, cutsA);
    SameCuts(l, ps, a, cutsA, b, cutsB, |cutsA|);
    SameTexts(l, ps, a, cutsA, b, cutsB, |cutsA|);
    assert cutsA[..|cutsA|] == cutsA && cutsB[..|cutsA|] == cutsB;
  }
}
