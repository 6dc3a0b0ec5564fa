/** Splitting text into sentences in any script (src/shared/unicode_text.py). */
module UnicodeText {
  import opened Text

  /** The Unicode character classes, as far as this code asks about them. */
  datatype CharClass = CharClass(isAlpha: char -> bool, isUpper: char -> bool, isLower: char -> bool)

  predicate IsTerminator(c: char) {
    c == '.' || c == '!' || c == '?'
  }

  predicate IsDigit(c: char) {
    '0' <= c <= '9'
  }

  /** Letters are neither white space nor sentence punctuation. */
  ghost predicate Sound(u: CharClass) {
    forall c | u.isAlpha(c) :: !IsSpace(c) && !IsTerminator(c)
  }

  /** `opens_sentence` on the text from position `i`. */
  predicate Opens(u: CharClass, s: string, i: nat) {
    i < |s| && u.isAlpha(s[i]) && (u.isUpper(s[i]) || !u.isLower(s[i]))
  }

  /** The end of the white space starting at `i`. */
  function RunEnd(s: string, i: nat): (e: nat)
    requires i <= |s|
    ensures i <= e <= |s|
    ensures forall j | i <= j < e :: IsSpace(s[j])
    ensures e < |s| ==> !IsSpace(s[e])
    decreases |s| - i
  {
    if i < |s| && IsSpace(s[i]) then RunEnd(s, i + 1) else i
  }

  /** Where `_SENTENCE_BOUNDARY` matches: white space after a terminator that does not follow a digit. */
  predicate Boundary(s: string, p: nat) {
    0 < p < |s| && IsTerminator(s[p - 1]) && !(p >= 2 && IsDigit(s[p - 2])) && IsSpace(s[p])
  }

  /** The next match at or after `pos`. */
  function NextBoundary(s: string, pos: nat): (r: Option<nat>)
    ensures r.Some? ==> pos <= r.value < |s| && Boundary(s, r.value)
    ensures forall p | pos <= p < (if r.Some? then r.value else |s|) :: !Boundary(s, p)
    decreases |s| - pos
  {
    if pos >= |s| then None else if Boundary(s, pos) then Some(pos) else NextBoundary(s, pos + 1)
  }

  /** A cut: a match whose white space is followed by the start of a sentence. */
  predicate Cut(u: CharClass, s: string, p: nat) {
    Boundary(s, p) && Opens(u, s, RunEnd(s, p))
  }

  function NextCut(u: CharClass, s: string, pos: nat): (r: Option<nat>)
    ensures r.Some? ==> pos <= r.value < |s| && Cut(u, s, r.value)
    ensures forall p | pos <= p < (if r.Some? then r.value else |s|) :: !Cut(u, s, p)
    decreases |s| - pos
  {
    if pos >= |s| then None else if Cut(u, s, pos) then Some(pos) else NextCut(u, s, pos + 1)
  }

  /** The stretches between cuts, from `start` on. */
  function Pieces(u: CharClass, s: string, start: nat): seq<string>
    requires start <= |s|
    decreases |s| - start
  {
    match NextCut(u, s, start)
    case None => [s[start..]]
    case Some(p) => [s[start..p]] + Pieces(u, s, RunEnd(s, p))
  }

  /** The white space removed at the cuts. */
  function Gaps(u: CharClass, s: string, start: nat): seq<string>
    requires start <= |s|
    decreases |s| - start
  {
    match NextCut(u, s, start)
    case None => []
    case Some(p) => [s[p..RunEnd(s, p)]] + Gaps(u, s, RunEnd(s, p))
  }

  /** There is no cut between `a` and `b`, so looking from either finds the same next one. */
  lemma {:induction false} NextCutSkips(u: CharClass, s: string, a: nat, b: nat)
    requires a <= b <= |s| && forall p | a <= p < b :: !Cut(u, s, p)
    ensures NextCut(u, s, a) == NextCut(u, s, b)
    decreases b - a
  {
    if a < b {
      NextCutSkips(u, s, a + 1, b);
    }
  }

  /** One match, taken or passed over. */
  lemma MatchStep(u: CharClass, s: string, start: nat, pos: nat)
    requires start <= pos <= |s| && NextCut(u, s, start) == NextCut(u, s, pos) && NextBoundary(s, pos).Some?
    ensures NextBoundary(s, pos).value < RunEnd(s, NextBoundary(s, pos).value)
    ensures var p := NextBoundary(s, pos).value;
            if Opens(u, s, RunEnd(s, p)) then Pieces(u, s, start) == [s[start..p]] + Pieces(u, s, RunEnd(s, p))
            else NextCut(u, s, start) == NextCut(u, s, RunEnd(s, p))
  {
    var p := NextBoundary(s, pos).value;
    var end := RunEnd(s, p);
    NextCutSkips(u, s, pos, p);
    if !Opens(u, s, end) {
      forall q | p < q < end
        ensures !Cut(u, s, q)
      {
        assert IsSpace(s[q - 1]);
      }
      NextCutSkips(u, s, p, end);
    }
  }

  lemma NoMatchNoCut(u: CharClass, s: string, pos: nat)
    requires NextBoundary(s, pos).None?
    ensures NextCut(u, s, pos).None?
  {
  }

  lemma LastPiece(u: CharClass, s: string, start: nat)
    requires start <= |s| && NextCut(u, s, start).None?
    ensures Pieces(u, s, start) == [s[start..]]
  {
  }

  /** `sentence_split`: walk the matches, keep those that open a sentence. */
  method SentenceSplit(u: CharClass, src: string) returns (out: seq<string>)
    ensures out == Pieces(u, src, 0)
  {
    hide Cut, Boundary, Opens, Pieces, NextCut, NextBoundary;
    out := [];
    var start, pos := 0, 0;
    assert out + Pieces(u, src, 0) == Pieces(u, src, 0);
    var m := NextBoundary(src, pos);
    while m.Some?
      invariant 0 <= start <= pos <= |src| && m == NextBoundary(src, pos)
      invariant NextCut(u, src, start) == NextCut(u, src, pos)
      invariant out + Pieces(u, src, start) == Pieces(u, src, 0)
      decreases |src| - pos
    {
      MatchStep(u, src, start, pos);
      var end := RunEnd(src, m.value);
      if Opens(u, src, end) {
        assert out + ([src[start..m.value]] + Pieces(u, src, end)) ==
          (out + [src[start..m.value]]) + Pieces(u, src, end);
        out := out + [src[start..m.value]];
        start := end;
      }
      pos := end;
      m := NextBoundary(src, pos);
    }
    NoMatchNoCut(u, src, pos);
    LastPiece(u, src, start);
    out := out + [src[start..]];
  }

  // ---- what the split means ----------------------------------------------------------------------------------------

  function Interleave(pieces: seq<string>, gaps: seq<string>): string
    requires |pieces| == |gaps| + 1
  {
    if gaps == [] then pieces[0] else pieces[0] + gaps[0] + Interleave(pieces[1..], gaps[1..])
  }

  ghost predicate Blank(s: string) {
    s != "" && forall i | 0 <= i < |s| :: IsSpace(s[i])
  }

  predicate EndsInTerminator(s: string) {
    s != "" && IsTerminator(s[|s| - 1])
  }

  /** Where a piece can start: at the beginning, or where a sentence opens. */
  ghost predicate Anchored(u: CharClass, s: string, start: nat) {
    start <= |s| && (start == 0 || Opens(u, s, start))
  }

  /** From an anchor, the cut lies beyond it. */
  lemma CutBeyondAnchor(u: CharClass, s: string, start: nat)
    requires Sound(u) && Anchored(u, s, start) && NextCut(u, s, start).Some?
    ensures var p := NextCut(u, s, start).value;
            && start < p < RunEnd(s, p) && Anchored(u, s, RunEnd(s, p)) && RunEnd(s, p) > 0
            && EndsInTerminator(s[start..p]) && (start > 0 ==> Opens(u, s[start..p], 0))
  {
  }

  lemma GapBlank(u: CharClass, s: string, start: nat)
    requires start <= |s| && NextCut(u, s, start).Some?
    ensures var p := NextCut(u, s, start).value; p < RunEnd(s, p) && Blank(s[p..RunEnd(s, p)])
  {
  }

  lemma InterleaveCons(piece: string, gap: string, pieces: seq<string>, gaps: seq<string>)
    requires |pieces| == |gaps| + 1
    ensures Interleave([piece] + pieces, [gap] + gaps) == piece + gap + Interleave(pieces, gaps)
  {
    assert ([piece] + pieces)[1..] == pieces && ([gap] + gaps)[1..] == gaps;
  }

  lemma {:induction false} OneMorePiece(u: CharClass, s: string, start: nat)
    requires start <= |s|
    ensures |Pieces(u, s, start)| == |Gaps(u, s, start)| + 1
    decreases |s| - start
  {
    if NextCut(u, s, start).Some? {
      GapBlank(u, s, start);
      OneMorePiece(u, s, RunEnd(s, NextCut(u, s, start).value));
    }
  }

  lemma {:induction false} GapsBlank(u: CharClass, s: string, start: nat)
    requires start <= |s|
    ensures forall g | g in Gaps(u, s, start) :: Blank(g)
    decreases |s| - start
  {
    if NextCut(u, s, start).Some? {
      hide Blank, Cut, NextCut;
      GapBlank(u, s, start);
      GapsBlank(u, s, RunEnd(s, NextCut(u, s, start).value));
    }
  }

  lemma {:induction false} PiecesInterleave(u: CharClass, s: string, start: nat)
    requires start <= |s|
    ensures |Pieces(u, s, start)| == |Gaps(u, s, start)| + 1
    ensures Interleave(Pieces(u, s, start), Gaps(u, s, start)) == s[start..]
    decreases |s| - start
  {
    OneMorePiece(u, s, start);
    if NextCut(u, s, start).Some? {
      hide Cut, Blank, Interleave, NextCut, RunEnd;
      var p := NextCut(u, s, start).value;
      var e := RunEnd(s, p);
      GapBlank(u, s, start);
      PiecesInterleave(u, s, e);
      InterleaveCons(s[start..p], s[p..e], Pieces(u, s, e), Gaps(u, s, e));
      JoinThree(s, start, p, e);
    }
  }

  /** The text is the pieces with the removed stretches between them, every one of them white space. */
  lemma SplitPartitions(u: CharClass, s: string, start: nat)
    requires start <= |s|
    ensures |Pieces(u, s, start)| == |Gaps(u, s, start)| + 1
    ensures Interleave(Pieces(u, s, start), Gaps(u, s, start)) == s[start..]
    ensures forall i | 0 <= i < |Gaps(u, s, start)| :: Blank(Gaps(u, s, start)[i])
  {
    hide Pieces, Gaps, Interleave, Blank;
    PiecesInterleave(u, s, start);
    GapsBlank(u, s, start);
  }

  lemma JoinThree(s: string, a: nat, b: nat, c: nat)
    requires a <= b <= c <= |s|
    ensures s[a..b] + s[b..c] + s[c..] == s[a..]
  {
  }

  /** Every piece after the first opens a sentence; every piece but the last ends in a terminator. */
  lemma {:induction false} SplitEnds(u: CharClass, s: string, start: nat)
    requires Sound(u) && Anchored(u, s, start)
    ensures var ps := Pieces(u, s, start);
            && (start > 0 ==> Opens(u, ps[0], 0))
            && (forall i | 0 < i < |ps| :: Opens(u, ps[i], 0))
            && (forall i | 0 <= i < |ps| - 1 :: EndsInTerminator(ps[i]))
    decreases |s| - start
  {
    if NextCut(u, s, start).Some? {
      hide Cut, Opens, Anchored, Sound, EndsInTerminator;
      var p := NextCut(u, s, start).value;
      CutBeyondAnchor(u, s, start);
      SplitEnds(u, s, RunEnd(s, p));
    }
  }

  lemma {:induction false} RunEndUnique(s: string, i: nat, e: nat)
    requires i <= e < |s| && (forall j | i <= j < e :: IsSpace(s[j])) && !IsSpace(s[e])
    ensures RunEnd(s, i) == e
    decreases e - i
  {
    if i < e {
      RunEndUnique(s, i + 1, e);
    }
  }

  /** A cut inside a piece would be a cut of the text. */
  lemma CutLifts(u: CharClass, s: string, a: nat, b: nat, q: nat)
    requires Sound(u) && Anchored(u, s, a) && a <= b <= |s| && Cut(u, s[a..b], q)
    ensures a + q < b && Cut(u, s, a + q)
  {
    var piece := s[a..b];
    var e := RunEnd(piece, q);
    assert forall j | 0 <= j < |piece| :: piece[j] == s[a + j];
    assert forall j | a + q <= j < a + e :: s[j] == piece[j - a];
    RunEndUnique(s, a + q, a + e);
  }

  lemma PieceUncut(u: CharClass, s: string, a: nat, b: nat)
    requires Sound(u) && Anchored(u, s, a) && a <= b <= |s| && forall p | a <= p < b :: !Cut(u, s, p)
    ensures Pieces(u, s[a..b], 0) == [s[a..b]]
  {
    var piece := s[a..b];
    if NextCut(u, piece, 0).Some? {
      CutLifts(u, s, a, b, NextCut(u, piece, 0).value);
      assert false;
    }
    assert piece[0..] == piece;
  }

  /** Splitting any piece again returns that piece alone. */
  lemma {:induction false} SplitIsFinal(u: CharClass, s: string, start: nat, i: nat)
    requires Sound(u) && Anchored(u, s, start) && i < |Pieces(u, s, start)|
    ensures Pieces(u, Pieces(u, s, start)[i], 0) == [Pieces(u, s, start)[i]]
    decreases |s| - start
  {
    assert start <= |s|;
    hide Cut, Anchored, Sound, Boundary, NextCut, RunEnd, EndsInTerminator, Opens;
    match NextCut(u, s, start)
    case None =>
      PieceUncut(u, s, start, |s|);
      assert s[start..|s|] == s[start..];
    case Some(p) =>
      if i == 0 {
        PieceUncut(u, s, start, p);
      } else {
        CutBeyondAnchor(u, s, start);
        SplitIsFinal(u, s, RunEnd(s, p), i - 1);
      }
  }

  // ---- where the text is split -------------------------------------------------------------------------------------

  /** White space from `p` up to the start of a sentence at `e`, after a terminator that does not follow a digit. */
  ghost predicate SplitHere(u: CharClass, s: string, p: nat, e: nat) {
    && 0 < p < e < |s| && s[p - 1] in {'.', '!', '?'} && (p >= 2 ==> s[p - 2] < '0' || '9' < s[p - 2])
    && (forall j | p <= j < e :: IsSpace(s[j])) && !IsSpace(s[e])
    && u.isAlpha(s[e]) && (u.isUpper(s[e]) || !u.isLower(s[e]))
  }

  lemma CutIffSplit(u: CharClass, s: string, p: nat)
    ensures Cut(u, s, p) <==> exists e :: SplitHere(u, s, p, e)
    ensures Cut(u, s, p) ==> SplitHere(u, s, p, RunEnd(s, p))
  {
    if e :| SplitHere(u, s, p, e) {
      RunEndUnique(s, p, e);
      assert Cut(u, s, p);
    }
    if Cut(u, s, p) {
      var e := RunEnd(s, p);
      assert e != p;
      assert SplitHere(u, s, p, e);
    }
  }

  /** Where the pieces end. */
  ghost function Ends(u: CharClass, s: string, start: nat): seq<nat>
    requires start <= |s|
    decreases |s| - start
  {
    match NextCut(u, s, start)
    case None => []
    case Some(p) => [p] + Ends(u, s, RunEnd(s, p))
  }

  lemma {:induction false} EndsAreCuts(u: CharClass, s: string, start: nat, p: nat)
    requires start <= |s|
    ensures p in Ends(u, s, start) <==> start <= p && Cut(u, s, p)
    decreases |s| - start
  {
    if NextCut(u, s, start).Some? {
      var q := NextCut(u, s, start).value;
      EndsAreCuts(u, s, RunEnd(s, q), p);
      if q < p < RunEnd(s, q) {
        assert IsSpace(s[p - 1]);
      }
    }
  }

  /** Each piece starts where the white space after the one before it ends, and ends at the next split, or with the
      text. */
  lemma {:induction false} PiecesBetweenEnds(u: CharClass, s: string, start: nat, k: nat)
    requires start <= |s| && k < |Pieces(u, s, start)|
    ensures var es := Ends(u, s, start);
            && |Pieces(u, s, start)| == |es| + 1
            && (forall i | 0 <= i < |es| :: start <= es[i] <= |s|)
            && var from := if k == 0 then start else RunEnd(s, es[k - 1]);
               var to := if k == |es| then |s| else es[k];
               from <= to && Pieces(u, s, start)[k] == s[from..to]
    decreases |s| - start
  {
    hide Cut, NextCut, RunEnd;
    if NextCut(u, s, start).Some? {
      var q := NextCut(u, s, start).value;
      GapBlank(u, s, start);
      PiecesBetweenEnds(u, s, RunEnd(s, q), if k == 0 then 0 else k - 1);
      assert Pieces(u, s, start) == [s[start..q]] + Pieces(u, s, RunEnd(s, q));
      assert Ends(u, s, start) == [q] + Ends(u, s, RunEnd(s, q));
    }
  }

  /** The splits are exactly where the text calls for them: the pieces are the stretches between all places with white
      space between a terminator, not after a digit, and the start of a sentence. */
  lemma SplitsExactly(u: CharClass, s: string, p: nat)
    ensures p in Ends(u, s, 0) <==> exists e :: SplitHere(u, s, p, e)
  {
    EndsAreCuts(u, s, 0, p);
    CutIffSplit(u, s, p);
  }
}
