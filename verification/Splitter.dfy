/**
 Bounded splitting of a section into overlapping parts (packages/retrieval/chunking.py).

 The loop is described twice: as a small-step machine over `Cursor`, on which
 termination is decided, and as the method `BoundedParts`, which runs it.
 A `Part` remembers how its text came about: the tail it carries over from the
 part before it, then the fresh pieces, each with the paragraph it was cut from.
 */
module Splitter {

  datatype Limits = Limits(maxChars: nat, overlap: nat)

  // What the constructor accepts.
  predicate Accepted(l: Limits) {
    200 <= l.maxChars && l.overlap < l.maxChars
  }

  datatype Piece = Piece(paragraph: nat, text: string)
  datatype Part = Part(carry: string, pieces: seq<Piece>)

  function Join(current: string, piece: string): string {
    if current == "" then piece else current + "\n\n" + piece
  }

  function Gap(current: string): nat {
    if current == "" then 0 else 2
  }

  // The last `n` characters; a shorter text is kept whole.
  function Tail(s: string, n: nat): string {
    if n == 0 then "" else if |s| <= n then s else s[|s| - n..]
  }

  function Render(p: Part): string
    decreases |p.pieces|
  {
    if p.pieces == [] then p.carry
    else Join(Render(Part(p.carry, p.pieces[..|p.pieces| - 1])), p.pieces[|p.pieces| - 1].text)
  }

  function Extend(p: Part, piece: Piece): Part {
    Part(p.carry, p.pieces + [piece])
  }

  lemma RenderExtend(p: Part, piece: Piece)
    ensures Render(Extend(p, piece)) == Join(Render(p), piece.text)
  {
    assert (p.pieces + [piece])[..|p.pieces|] == p.pieces;
  }

  // ---------------------------------------------------------------- the machine

  // `loaded` counts the paragraphs the outer loop has entered; `remaining` is what
  // is left of the last of them.
  datatype Cursor = Cursor(parts: seq<Part>, current: Part, loaded: nat, remaining: string)

  const START := Cursor([], Part("", []), 0, "")

  predicate Paragraphs(ps: seq<string>) {
    forall i | 0 <= i < |ps| :: ps[i] != ""
  }

  predicate Halted(ps: seq<string>, s: Cursor) {
    s.remaining == "" && s.loaded >= |ps|
  }

  function Flush(l: Limits, s: Cursor): Cursor {
    s.(parts := s.parts + [s.current], current := Part(Tail(Render(s.current), l.overlap), []))
  }

  function Room(l: Limits, current: string): int {
    l.maxChars - |current| - Gap(current)
  }

  function Cut(remaining: string, room: nat): nat {
    if |remaining| <= room then |remaining| else room
  }

  function Take(l: Limits, s: Cursor): Cursor
    requires s.loaded > 0 && Room(l, Render(s.current)) > 0
  {
    var n := Cut(s.remaining, Room(l, Render(s.current)));
    s.(current := Extend(s.current, Piece(s.loaded - 1, s.remaining[..n])), remaining := s.remaining[n..])
  }

  function Load(ps: seq<string>, s: Cursor): Cursor
    requires s.loaded < |ps|
  {
    s.(loaded := s.loaded + 1, remaining := ps[s.loaded])
  }

  // One iteration of the inner loop, or the outer loop's move to the next paragraph.
  function Step(l: Limits, ps: seq<string>, s: Cursor): Cursor
    requires !Halted(ps, s) && (s.remaining != "" ==> s.loaded > 0)
  {
    if s.remaining == "" then Load(ps, s)
    else if Room(l, Render(s.current)) <= 0 then Flush(l, s)
    else
      var t := Take(l, s);
      if |Render(t.current)| >= l.maxChars then Flush(l, t) else t
  }

  predicate WellPlaced(ps: seq<string>, s: Cursor) {
    s.loaded <= |ps| && (s.remaining != "" ==> s.loaded > 0)
  }

  function Iterate(l: Limits, ps: seq<string>, s: Cursor, n: nat): (r: Cursor)
    requires WellPlaced(ps, s)
    ensures WellPlaced(ps, r)
    decreases n
  {
    if n == 0 || Halted(ps, s) then s else Iterate(l, ps, Step(l, ps, s), n - 1)
  }

  ghost predicate Terminates(l: Limits, ps: seq<string>) {
    exists n: nat :: Halted(ps, Iterate(l, ps, START, n))
  }

  // Length of the paragraphs joined by blank lines.
  function JoinedLength(ps: seq<string>): nat {
    if ps == [] then 0 else if |ps| == 1 then |ps[0]| else |ps[0]| + 2 + JoinedLength(ps[1..])
  }

  // What `current` would grow to if everything left were appended to it.
  function Pending(ps: seq<string>, from: nat): nat
    requires from <= |ps|
    decreases |ps| - from
  {
    if from == |ps| then 0 else 2 + |ps[from]| + Pending(ps, from + 1)
  }

  function Projected(ps: seq<string>, s: Cursor): int
    requires WellPlaced(ps, s)
  {
    var current := Render(s.current);
    |current| + (if s.remaining == "" then 0 else Gap(current) + |s.remaining|) + Pending(ps, s.loaded)
      - (if current == "" && s.remaining == "" && s.loaded < |ps| then 2 else 0)
  }

  lemma {:induction false} PendingIsJoinedLength(ps: seq<string>, from: nat)
    requires from < |ps|
    ensures Pending(ps, from) == 2 + JoinedLength(ps[from..])
    decreases |ps| - from
  {
    if from + 1 < |ps| {
      PendingIsJoinedLength(ps, from + 1);
      assert ps[from..][1..] == ps[from + 1..];
    }
  }

  lemma StartProjects(ps: seq<string>)
    ensures WellPlaced(ps, START) && Projected(ps, START) == JoinedLength(ps)
  {
    if ps != [] {
      PendingIsJoinedLength(ps, 0);
      assert ps[0..] == ps;
    }
  }

  // The code's loop makes progress from `s`: either flushing frees room, or nothing will be flushed.
  predicate Progresses(l: Limits, ps: seq<string>, s: Cursor) {
    && Accepted(l) && WellPlaced(ps, s)
    && |Render(s.current)| < l.maxChars
    && (l.overlap + 3 <= l.maxChars || Projected(ps, s) <= l.maxChars || Halted(ps, s))
  }

  lemma TakeProjects(l: Limits, ps: seq<string>, s: Cursor)
    requires WellPlaced(ps, s) && s.remaining != "" && Room(l, Render(s.current)) > 0
    ensures var t := Take(l, s);
            && WellPlaced(ps, t) && Render(t.current) != "" && |Render(t.current)| <= l.maxChars
            && |t.remaining| < |s.remaining|
            && (t.remaining != "" ==> |Render(t.current)| == l.maxChars)
            && Projected(ps, s) == |Render(t.current)| + |t.remaining| + Pending(ps, s.loaded)
            && (t.remaining == "" ==> Projected(ps, t) == Projected(ps, s))
  {
    var n := Cut(s.remaining, Room(l, Render(s.current)));
    RenderExtend(s.current, Piece(s.loaded - 1, s.remaining[..n]));
  }

  lemma StepProgresses(l: Limits, ps: seq<string>, s: Cursor)
    requires Paragraphs(ps) && Progresses(l, ps, s) && !Halted(ps, s)
    ensures Progresses(l, ps, Step(l, ps, s))
  {
    if s.remaining == "" {
      assert ps[s.loaded] != "";
    } else if Room(l, Render(s.current)) > 0 {
      TakeProjects(l, ps, s);
    }
  }

  predicate MustFlush(l: Limits, s: Cursor) {
    Room(l, Render(s.current)) <= 0
  }

  // Termination measure: paragraphs left, then text left in this one, then whether the buffer must be flushed.
  lemma {:induction false} Halts(l: Limits, ps: seq<string>, s: Cursor) returns (n: nat)
    requires Paragraphs(ps) && Progresses(l, ps, s)
    ensures Halted(ps, Iterate(l, ps, s, n))
    decreases |ps| - s.loaded, |s.remaining|, MustFlush(l, s)
  {
    if Halted(ps, s) {
      n := 0;
    } else {
      StepProgresses(l, ps, s);
      if s.remaining != "" && !MustFlush(l, s) {
        TakeProjects(l, ps, s);
      }
      var m := Halts(l, ps, Step(l, ps, s));
      n := m + 1;
    }
  }

  // With `overlap` at `maxChars - 2` or `maxChars - 1` a full buffer never frees any room.
  predicate Stuck(l: Limits, ps: seq<string>, s: Cursor) {
    && WellPlaced(ps, s) && !Halted(ps, s)
    && l.maxChars - 2 <= |Render(s.current)| < l.maxChars
  }

  predicate Doomed(l: Limits, ps: seq<string>, s: Cursor) {
    || Stuck(l, ps, s)
    || (WellPlaced(ps, s) && |Render(s.current)| < l.maxChars - 2 && Projected(ps, s) > l.maxChars)
  }

  lemma {:induction false} FlushFreesNothing(l: Limits, s: Cursor)
    requires Accepted(l) && l.overlap + 3 > l.maxChars
    requires l.maxChars - 2 <= |Render(s.current)|
    ensures l.maxChars - 2 <= |Render(Flush(l, s).current)| < l.maxChars
  {
  }

  lemma StepStaysDoomed(l: Limits, ps: seq<string>, s: Cursor)
    requires Accepted(l) && l.overlap + 3 > l.maxChars && Paragraphs(ps) && Doomed(l, ps, s)
    ensures !Halted(ps, s) && Doomed(l, ps, Step(l, ps, s))
  {
    if s.remaining == "" {
      assert s.loaded < |ps| && ps[s.loaded] != "";
    } else if Room(l, Render(s.current)) <= 0 {
      FlushFreesNothing(l, s);
    } else {
      TakeProjects(l, ps, s);
      var t := Take(l, s);
      if |Render(t.current)| >= l.maxChars {
        FlushFreesNothing(l, t);
        assert t.remaining != "" || s.loaded < |ps|;
      }
    }
  }

  lemma {:induction false} DoomedRunsForever(l: Limits, ps: seq<string>, s: Cursor, n: nat)
    requires Accepted(l) && l.overlap + 3 > l.maxChars && Paragraphs(ps) && Doomed(l, ps, s)
    ensures !Halted(ps, Iterate(l, ps, s, n))
    decreases n
  {
    StepStaysDoomed(l, ps, s);
    if n > 0 {
      DoomedRunsForever(l, ps, Step(l, ps, s), n - 1);
    }
  }

  // For every accepted configuration: the loop ends exactly when the overlap leaves room for a
  // separator and a character, or the whole section fits in one part.
  lemma TerminatesExactlyWhen(l: Limits, ps: seq<string>)
    requires Accepted(l) && Paragraphs(ps)
    ensures Terminates(l, ps) <==> l.overlap + 3 <= l.maxChars || JoinedLength(ps) <= l.maxChars
  {
    StartProjects(ps);
    if l.overlap + 3 <= l.maxChars || JoinedLength(ps) <= l.maxChars {
      var n := Halts(l, ps, START);
    } else {
      forall n: nat ensures !Halted(ps, Iterate(l, ps, START, n)) {
        DoomedRunsForever(l, ps, START, n);
      }
    }
  }
}
