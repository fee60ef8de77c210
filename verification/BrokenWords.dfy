/** Where lines end when words may be broken: nowhere too early, and a broken word on the fewest
    lines. */
module BrokenWords {
  import opened Basics
  import opened TextWrap
  import opened FewestLines

  // --- one word, cut ----------------------------------------------------------

  /** Are these the places where pieces of a word start? */
  predicate Cuts(word: string, at: seq<nat>) {
    && at != [] && at[0] == 0
    && (forall i :: 0 <= i < |at| ==> at[i] < |word|)
    && forall i :: 0 <= i < |at| - 1 ==> at[i] < at[i + 1]
  }

  /** Piece i of a word cut at these places. */
  function Piece(word: string, at: seq<nat>, i: nat): string
    requires Cuts(word, at) && i < |at|
  {
    word[at[i]..if i + 1 < |at| then at[i + 1] else |word|]
  }

  /** The pieces but the last. */
  function Front(word: string, at: seq<nat>): (pieces: seq<string>)
    requires Cuts(word, at)
    ensures |pieces| == |at| - 1
  {
    seq(|at| - 1, i requires 0 <= i < |at| - 1 => word[at[i]..at[i + 1]])
  }

  /** Every piece was ended by a character for which there was no more room. */
  predicate CutLate(r: Ruler, word: string, at: seq<nat>)
    requires Cuts(word, at)
  {
    forall i :: 0 <= i < |at| - 1 ==> !r.Fits(word[at[i]..at[i + 1] + 1])
  }

  lemma LongerCuts(word: string, at: seq<nat>, c: char)
    requires Cuts(word, at)
    ensures Cuts(word + [c], at) && Front(word + [c], at) == Front(word, at)
    ensures (word + [c])[at[|at| - 1]..] == word[at[|at| - 1]..] + [c]
  {
    forall i | 0 <= i < |at| - 1 ensures (word + [c])[at[i]..at[i + 1]] == word[at[i]..at[i + 1]] {
    }
  }

  lemma StillLate(r: Ruler, word: string, at: seq<nat>, c: char)
    requires Cuts(word, at) && Cuts(word + [c], at) && CutLate(r, word, at)
    ensures CutLate(r, word + [c], at)
  {
    forall i | 0 <= i < |at| - 1 ensures !r.Fits((word + [c])[at[i]..at[i + 1] + 1]) {
      assert (word + [c])[at[i]..at[i + 1] + 1] == word[at[i]..at[i + 1] + 1];
    }
  }

  /** A word on lines of its own is cut as late as possible. */
  lemma {:induction false} SpillCutsLate(r: Ruler, lines: seq<string>, word: string) returns (at: seq<nat>)
    requires word != ""
    ensures Cuts(word, at) && CutLate(r, word, at)
    ensures Spill(r, Open(lines, ""), word) == Open(lines + Front(word, at), word[at[|at| - 1]..])
    decreases |word|
  {
    var n := |word| - 1;
    var head, c := word[..n], word[n];
    assert word == head + [c];
    if n == 0 {
      at := [0];
      assert lines + Front(word, at) == lines && word[0..] == [] + [c];
    } else {
      var before := SpillCutsLate(r, lines, head);
      LongerCuts(head, before, c);
      StillLate(r, head, before, c);
      var current := head[before[|before| - 1]..];
      if r.Fits(current + [c]) {
        at := before;
      } else {
        at := before + [n];
        CutOnce(r, word, before);
        assert lines + Front(word, at) == lines + Front(head, before) + [current];
      }
    }
  }

  /** One more cut, ahead of the last character. */
  lemma CutOnce(r: Ruler, word: string, at: seq<nat>)
    requires word != "" && Cuts(word[..|word| - 1], at) && Cuts(word, at) && CutLate(r, word, at)
    requires !r.Fits(word[at[|at| - 1]..])
    ensures var more := at + [|word| - 1];
            && Cuts(word, more) && CutLate(r, word, more)
            && Front(word, more) == Front(word[..|word| - 1], at) + [word[at[|at| - 1]..|word| - 1]]
  {
    hide CutLate, Front;
    var n := |word| - 1;
    var more := at + [n];
    forall i | 0 <= i < |more| - 1 ensures more[i] < more[i + 1] {
    }
    CutLateOnce(r, word, at);
    FrontGrows(word, at);
  }

  lemma CutLateOnce(r: Ruler, word: string, at: seq<nat>)
    requires word != "" && Cuts(word, at) && CutLate(r, word, at) && !r.Fits(word[at[|at| - 1]..])
    requires Cuts(word, at + [|word| - 1])
    ensures CutLate(r, word, at + [|word| - 1])
  {
    var n := |word| - 1;
    var more := at + [n];
    forall i | 0 <= i < |more| - 1 ensures !r.Fits(word[more[i]..more[i + 1] + 1]) {
      if i == |at| - 1 {
        assert word[more[i]..n + 1] == word[at[|at| - 1]..];
      }
    }
  }

  lemma FrontGrows(word: string, at: seq<nat>)
    requires word != "" && Cuts(word[..|word| - 1], at) && Cuts(word, at + [|word| - 1])
    ensures Front(word, at + [|word| - 1]) == Front(word[..|word| - 1], at) + [word[at[|at| - 1]..|word| - 1]]
  {
    forall i | 0 <= i < |at| - 1 ensures word[at[i]..at[i + 1]] == word[..|word| - 1][at[i]..at[i + 1]] {
    }
  }

  // --- on the fewest lines ----------------------------------------------------

  /** No string is narrower than a part of it. */
  ghost predicate Narrowing(r: Ruler) {
    forall s: string, i, j :: 0 <= i <= j <= |s| && r.Fits(s) ==> r.Fits(s[i..j])
  }

  /** A way of cutting a word into pieces that fit a line or cannot be cut any more. */
  predicate Fitting(r: Ruler, word: string, at: seq<nat>) {
    Cuts(word, at) && forall i :: 0 <= i < |at| ==> r.Fits(Piece(word, at, i)) || |Piece(word, at, i)| == 1
  }

  lemma LongerIsTooWide(r: Ruler, word: string, a: nat, c: nat, d: nat, b: nat)
    requires Narrowing(r) && a <= c <= d <= b <= |word| && !r.Fits(word[c..d])
    ensures !r.Fits(word[a..b])
  {
    var s, part := word[a..b], word[c..d];
    assert |s[c - a..d - a]| == |part|;
    forall k | 0 <= k < |part| ensures s[c - a..d - a][k] == part[k] {
    }
    assert s[c - a..d - a] == part;
  }

  /** Cutting late keeps ahead: after equally many pieces no other cutting has got further. */
  lemma {:induction false} LateStaysAhead(r: Ruler, word: string, at: seq<nat>, other: seq<nat>, i: nat)
    requires Narrowing(r) && Cuts(word, at) && CutLate(r, word, at) && Fitting(r, word, other)
    requires i < |at| && i < |other|
    ensures other[i] <= at[i]
    decreases i
  {
    hide Narrowing;
    if i > 0 {
      LateStaysAhead(r, word, at, other, i - 1);
      var piece := Piece(word, other, i - 1);
      assert r.Fits(piece) || |piece| == 1;
      if other[i] > at[i] {
        LongerIsTooWide(r, word, other[i - 1], at[i - 1], at[i] + 1, other[i]);
      }
    }
  }

  /** Of all ways to cut a word into pieces that fit, this one takes the fewest lines. */
  lemma BrokenOnFewestLines(r: Ruler, lines: seq<string>, word: string, other: seq<nat>)
    requires Narrowing(r) && word != "" && Fitting(r, word, other)
    ensures var o := Spill(r, Open(lines, ""), word); |Closed(o)| <= |lines| + |other|
  {
    hide Narrowing, Spill;
    var at := SpillCutsLate(r, lines, word);
    if |at| > |other| {
      var k := |other| - 1;
      LateStaysAhead(r, word, at, other, k);
      var piece := Piece(word, other, k);
      assert r.Fits(piece) || |piece| == 1;
      LongerIsTooWide(r, word, other[k], at[k], at[k + 1] + 1, |word|);
    }
  }

  // --- where lines end --------------------------------------------------------

  function WordStart(t: string, p: nat): (s: nat)
    requires p <= |t|
    ensures s <= p
  {
    if p == 0 || t[p - 1] == ' ' then p else WordStart(t, p - 1)
  }

  function WordEnd(t: string, p: nat): (e: nat)
    requires p <= |t|
    ensures p <= e <= |t|
    decreases |t| - p
  {
    if p == |t| || t[p] == ' ' then p else WordEnd(t, p + 1)
  }

  /** May the line that shows t from a to b end there, the next one starting at `next`? Inside a
      word only if that word is too wide for a line, all there is on this one is a part of it,
      and not one character more would fit. Otherwise in place of a space, if the next word
      would not fit on this line. */
  predicate EndsRightly(r: Ruler, t: string, a: nat, b: nat, next: nat)
    requires a <= b <= next <= |t|
  {
    if next == b then
      && WordStart(t, b) <= a < b < WordEnd(t, b)
      && !r.Fits(t[WordStart(t, b)..WordEnd(t, b)])
      && !r.Fits(t[a..b + 1])
    else
      next == b + 1 && t[b] == ' ' && a < b && !r.Fits(t[a..WordEnd(t, next)])
  }

  /** Line i shows t from its place on, and ends rightly if another follows; the last one ends
      where t does. */
  predicate LineLaid(r: Ruler, t: string, line: string, a: nat, next: int, last: bool) {
    && a + |line| <= |t| && line == t[a..a + |line|]
    && if last then a + |line| == |t| else a + |line| <= next <= |t| && EndsRightly(r, t, a, a + |line|, next)
  }

  /** Line i of lines that start at these places. */
  predicate LaidAt(r: Ruler, t: string, lines: seq<string>, at: seq<nat>, i: nat)
    requires |lines| == |at| && i < |at|
  {
    LineLaid(r, t, lines[i], at[i], if i + 1 < |at| then at[i + 1] else 0, i + 1 == |at|)
  }

  /** These lines, starting at these places, show all of t but for the spaces they end in place
      of, and each ends rightly. */
  predicate Laid(r: Ruler, t: string, lines: seq<string>, at: seq<nat>) {
    && |lines| == |at| > 0 && at[0] == 0
    && forall i :: 0 <= i < |at| ==> LaidAt(r, t, lines, at, i)
  }

  lemma {:induction false} SameWordStart(t: string, more: string, p: nat)
    requires p <= |t|
    ensures WordStart(t + more, p) == WordStart(t, p)
  {
    if p > 0 && t[p - 1] != ' ' {
      SameWordStart(t, more, p - 1);
    }
  }

  lemma {:induction false} SameWordEnd(t: string, w: string, p: nat)
    requires p <= |t|
    ensures WordEnd(t + " " + w, p) == WordEnd(t, p)
    decreases |t| - p
  {
    if p < |t| && t[p] != ' ' {
      SameWordEnd(t, w, p + 1);
    }
  }

  lemma {:induction false} EndOfLastWord(t: string, p: nat)
    requires p <= |t| && forall k :: p <= k < |t| ==> t[k] != ' '
    ensures WordEnd(t, p) == |t|
    decreases |t| - p
  {
    if p < |t| {
      EndOfLastWord(t, p + 1);
    }
  }

  lemma {:induction false} StartOfLastWord(t: string, base: nat, p: nat)
    requires base <= p <= |t| && (base == 0 || t[base - 1] == ' ') && forall k :: base <= k < p ==> t[k] != ' '
    ensures WordStart(t, p) == base
    decreases p
  {
    if p > base {
      StartOfLastWord(t, base, p - 1);
    }
  }

  /** A line that ends rightly still does when more words follow. */
  lemma StillRightly(r: Ruler, t: string, w: string, a: nat, b: nat, next: nat)
    requires a <= b <= next <= |t| && EndsRightly(r, t, a, b, next)
    ensures EndsRightly(r, t + " " + w, a, b, next)
  {
    var u := t + " " + w;
    assert u == t + (" " + w);
    SameWordStart(t, " " + w, b);
    SameWordEnd(t, w, b);
    SameWordEnd(t, w, next);
    assert u[WordStart(t, b)..WordEnd(t, b)] == t[WordStart(t, b)..WordEnd(t, b)];
    assert u[a..WordEnd(t, next)] == t[a..WordEnd(t, next)];
    if next == b {
      assert u[a..b + 1] == t[a..b + 1];
    }
  }

  lemma StillLaid(r: Ruler, t: string, w: string, line: string, a: nat, next: int)
    requires LineLaid(r, t, line, a, next, false)
    ensures LineLaid(r, t + " " + w, line, a, next, false)
  {
    hide EndsRightly;
    StillRightly(r, t, w, a, a + |line|, next);
  }

  /** The word goes on the last line. */
  lemma JoinsTheLine(r: Ruler, t: string, w: string, lines: seq<string>, current: string, at: seq<nat>)
    requires Laid(r, t, lines + [current], at)
    ensures Laid(r, t + " " + w, lines + [current + " " + w], at)
  {
    hide LineLaid;
    var u, was, more, n := t + " " + w, lines + [current], lines + [current + " " + w], |at|;
    forall i | 0 <= i < n ensures LaidAt(r, u, more, at, i) {
      assert LaidAt(r, t, was, at, i);
      if i + 1 < n {
        StillLaid(r, t, w, was[i], at[i], at[i + 1]);
      } else {
        LastGrows(r, t, w, current, at[i]);
      }
    }
  }

  lemma LastGrows(r: Ruler, t: string, w: string, line: string, a: nat)
    requires LineLaid(r, t, line, a, 0, true)
    ensures LineLaid(r, t + " " + w, line + " " + w, a, 0, true)
  {
    var u := t + " " + w;
    assert u[a..] == t[a..] + " " + w;
  }

  /** A cut inside the last word of u. */
  lemma InsideLastWord(r: Ruler, before: string, w: string, p: nat, q: nat)
    requires (before == "" || before[|before| - 1] == ' ') && ' ' !in w && p < q < |w|
    requires !r.Fits(w) && !r.Fits(w[p..q + 1])
    ensures var u, base := before + w, |before|; EndsRightly(r, u, base + p, base + q, base + q)
  {
    hide WordStart, WordEnd;
    var u, base := before + w, |before|;
    assert forall k :: base <= k < |u| ==> u[k] != ' ';
    StartOfLastWord(u, base, base + q);
    EndOfLastWord(u, base + q);
    assert u[base..|u|] == w;
    assert u[base + p..base + q + 1] == w[p..q + 1];
  }

  /** The end of the line before the last word of u. */
  lemma BeforeLastWord(r: Ruler, t: string, w: string, a: nat)
    requires a < |t| && ' ' !in w && !r.Fits(t[a..] + " " + w)
    ensures EndsRightly(r, t + " " + w, a, |t|, |t| + 1)
  {
    var u := t + " " + w;
    EndOfLastWord(u, |t| + 1);
    assert u[a..|u|] == t[a..] + " " + w;
  }

  /** The pieces of a word. */
  function Pieces(word: string, at: seq<nat>): (pieces: seq<string>)
    requires Cuts(word, at)
    ensures |pieces| == |at|
  {
    Front(word, at) + [word[at[|at| - 1]..]]
  }

  function Moved(at: seq<nat>, base: nat): (r: seq<nat>)
    ensures |r| == |at|
  {
    seq(|at|, i requires 0 <= i < |at| => base + at[i])
  }

  lemma PiecesOf(word: string, at: seq<nat>, i: nat)
    requires Cuts(word, at) && i < |at|
    ensures Pieces(word, at)[i] == word[at[i]..if i + 1 < |at| then at[i + 1] else |word|]
  {
  }

  /** The pieces of the last word of u, in their places. */
  lemma PiecesLaid(r: Ruler, before: string, w: string, cuts: seq<nat>, i: nat)
    requires (before == "" || before[|before| - 1] == ' ') && ' ' !in w && Cuts(w, cuts) && CutLate(r, w, cuts)
    requires (|cuts| > 1 ==> !r.Fits(w)) && i < |cuts|
    ensures LineLaid(r, before + w, Pieces(w, cuts)[i], |before| + cuts[i],
                     if i + 1 < |cuts| then |before| + cuts[i + 1] else 0, i + 1 == |cuts|)
  {
    hide EndsRightly, Pieces;
    PiecesOf(w, cuts, i);
    var u, base := before + w, |before|;
    var to := if i + 1 < |cuts| then cuts[i + 1] else |w|;
    assert u[base + cuts[i]..base + to] == w[cuts[i]..to];
    if i + 1 < |cuts| {
      InsideLastWord(r, before, w, cuts[i], cuts[i + 1]);
    }
  }

  lemma LastCloses(r: Ruler, t: string, w: string, line: string, a: nat)
    requires LineLaid(r, t, line, a, 0, true) && line != "" && !r.Fits(line + " " + w) && ' ' !in w
    ensures LineLaid(r, t + " " + w, line, a, |t| + 1, false)
  {
    hide EndsRightly;
    assert line == t[a..];
    BeforeLastWord(r, t, w, a);
    assert (t + " " + w)[a..|t|] == t[a..];
  }

  /** The word starts a line of its own, and fits there or is cut late. */
  lemma StartsALine(r: Ruler, t: string, w: string, lines: seq<string>, current: string, at: seq<nat>, cuts: seq<nat>)
    requires Laid(r, t, lines + [current], at) && current != "" && !r.Fits(current + " " + w)
    requires Cuts(w, cuts) && CutLate(r, w, cuts) && ' ' !in w && (|cuts| > 1 ==> !r.Fits(w))
    ensures Laid(r, t + " " + w, lines + [current] + Pieces(w, cuts), at + Moved(cuts, |t| + 1))
  {
    hide LineLaid, CutLate, Pieces;
    var u, n, head := t + " " + w, |at|, lines + [current];
    var all, starts := head + Pieces(w, cuts), at + Moved(cuts, |t| + 1);
    var m := |starts|;
    forall i | 0 <= i < m ensures LaidAt(r, u, all, starts, i) {
      if i < n {
        assert LaidAt(r, t, head, at, i);
        if i + 1 < n {
          StillLaid(r, t, w, head[i], at[i], at[i + 1]);
        } else {
          LastCloses(r, t, w, current, at[i]);
        }
      } else {
        PiecesLaid(r, t + " ", w, cuts, i - n);
      }
    }
  }

  /** The first word of a paragraph. */
  lemma StartsAParagraph(r: Ruler, w: string, cuts: seq<nat>)
    requires Cuts(w, cuts) && CutLate(r, w, cuts) && ' ' !in w && (|cuts| > 1 ==> !r.Fits(w))
    ensures Laid(r, w, Pieces(w, cuts), cuts)
  {
    hide LineLaid, CutLate, Pieces;
    assert "" + w == w;
    forall i | 0 <= i < |cuts| ensures LaidAt(r, w, Pieces(w, cuts), cuts, i) {
      PiecesLaid(r, "", w, cuts, i);
    }
  }

  // --- the whole text ---------------------------------------------------------

  lemma NoSpaceInside(r: Ruler, w: string)
    requires r.Valid() && Word(r, w)
    ensures ' ' !in w
  {
  }

  lemma OneCut(r: Ruler, w: string)
    requires w != ""
    ensures Cuts(w, [0]) && CutLate(r, w, [0]) && Pieces(w, [0]) == [w]
  {
  }

  lemma SpillsInPieces(lines: seq<string>, w: string, cuts: seq<nat>)
    requires Cuts(w, cuts)
    ensures Closed(Open(lines + Front(w, cuts), w[cuts[|cuts| - 1]..])) == lines + Pieces(w, cuts)
  {
  }

  /** A word more on the lines of a paragraph. */
  lemma WordLaid(r: Ruler, t: string, o: Open, w: string, at: seq<nat>) returns (more: seq<nat>)
    requires r.Valid() && Word(r, w) && o.current != "" && Laid(r, t, Closed(o), at)
    ensures var p := PutWord(r, o, w, true);
            p.Some? && p.value.current != "" && Laid(r, t + " " + w, Closed(p.value), more)
  {
    hide Laid, Spill, CutLate, Cuts, Pieces, Front;
    NoSpaceInside(r, w);
    if r.Fits(Joined(o.current, w)) {
      JoinsTheLine(r, t, w, o.lines, o.current, at);
      more := at;
    } else {
      var cuts: seq<nat>;
      if r.Fits(w) {
        cuts := [0];
        OneCut(r, w);
        assert Closed(Open(Closed(o), w)) == o.lines + [o.current] + [w];
      } else {
        cuts := SpillCutsLate(r, Closed(o), w);
        SpillsInPieces(Closed(o), w, cuts);
      }
      StartsALine(r, t, w, o.lines, o.current, at, cuts);
      more := at + Moved(cuts, |t| + 1);
    }
  }

  /** The first word of a paragraph. */
  lemma FirstWordLaid(r: Ruler, w: string) returns (at: seq<nat>)
    requires r.Valid() && Word(r, w)
    ensures var p := PutWord(r, Open([], ""), w, true);
            p.Some? && p.value.current != "" && Laid(r, w, Closed(p.value), at)
  {
    hide Laid, Spill, CutLate, Cuts, Pieces, Front;
    NoSpaceInside(r, w);
    if r.Fits(w) {
      at := [0];
      OneCut(r, w);
      assert Closed(Open([], w)) == [w];
    } else {
      at := SpillCutsLate(r, [], w);
      SpillsInPieces([], w, at);
      assert [] + Pieces(w, at) == Pieces(w, at);
    }
    StartsAParagraph(r, w, at);
  }

  /** The lines of a paragraph's words end rightly, every one. */
  lemma {:induction false} ParagraphLaid(r: Ruler, words: seq<string>) returns (at: seq<nat>)
    requires r.Valid() && AllWords(r, words) && words != []
    ensures var o := PutWords(r, [], words, true);
            o.Some? && o.value.current != "" && Laid(r, Join(words), Closed(o.value), at)
  {
    hide Laid, Word, PutWord, Join;
    var n := |words| - 1;
    var w := words[n];
    assert words == words[..n] + [w];
    JoinLast(words[..n], w);
    if n == 0 {
      JoinNone();
      assert PutWords(r, [], words[..n], true) == Some(Open([], ""));
      at := FirstWordLaid(r, w);
    } else {
      var before := ParagraphLaid(r, words[..n]);
      JoinShows(r, words[..n]);
      at := WordLaid(r, Join(words[..n]), PutWords(r, [], words[..n], true).value, w, before);
    }
  }

  function Behind(lines: seq<string>, o: Open): Open {
    Open(lines + o.lines, o.current)
  }

  lemma {:induction false} SpillBehind(r: Ruler, lines: seq<string>, o: Open, word: string)
    ensures Spill(r, Behind(lines, o), word) == Behind(lines, Spill(r, o, word))
  {
    if word != "" {
      SpillBehind(r, lines, o, word[..|word| - 1]);
      var p := Spill(r, o, word[..|word| - 1]);
      assert lines + p.lines + [p.current] == lines + (p.lines + [p.current]);
    }
  }

  lemma PutWordBehind(r: Ruler, lines: seq<string>, o: Open, word: string)
    ensures var p, q := PutWord(r, Behind(lines, o), word, true), PutWord(r, o, word, true);
            p.Some? && q.Some? && p.value == Behind(lines, q.value)
  {
    hide Spill;
    SpillBehind(r, lines, o, word);
    SpillBehind(r, lines, Open(o.lines + [o.current], ""), word);
    assert lines + o.lines + [o.current] == lines + (o.lines + [o.current]);
  }

  lemma {:induction false} PutWordsBehind(r: Ruler, lines: seq<string>, words: seq<string>)
    ensures var p, q := PutWords(r, lines, words, true), PutWords(r, [], words, true);
            p.Some? && q.Some? && p.value == Behind(lines, q.value)
  {
    hide PutWord;
    if words != [] {
      PutWordsBehind(r, lines, words[..|words| - 1]);
      PutWordBehind(r, lines, PutWords(r, [], words[..|words| - 1], true).value, words[|words| - 1]);
    }
  }

  /** Lines on which a paragraph's words are shown, each ending rightly. */
  ghost predicate Shows(r: Ruler, words: seq<string>, lines: seq<string>) {
    if words == [] then lines == [""] else exists at :: Laid(r, Join(words), lines, at)
  }

  lemma ParagraphShown(r: Ruler, before: seq<string>, words: seq<string>) returns (lines: seq<string>)
    requires r.Valid() && AllWords(r, words)
    ensures var o := PutWords(r, before, words, true); o.Some? && Closed(o.value) == before + lines
    ensures Shows(r, words, lines)
  {
    hide Laid, PutWord, Word, Join;
    PutWordsBehind(r, before, words);
    var o := PutWords(r, [], words, true).value;
    lines := Closed(o);
    if words != [] {
      var at := ParagraphLaid(r, words);
    }
  }

  /** No line of a text ends too early where words may be broken, and no word is cut too early. */
  lemma {:induction false} EveryLineEndsRightly(r: Ruler, ps: seq<string>) returns (parts: seq<seq<string>>)
    requires r.Valid()
    ensures |parts| == |ps| && forall i :: 0 <= i < |ps| ==> Shows(r, Words(r, ps[i]), parts[i])
    ensures var lines := PutParagraphs(r, ps, true); lines.Some? && lines.value == Flat(parts)
  {
    hide Shows, Words, PutWords;
    if ps == [] {
      parts := [];
    } else {
      var n := |ps| - 1;
      var before := EveryLineEndsRightly(r, ps[..n]);
      var last := ParagraphShown(r, Flat(before), Words(r, ps[n]));
      parts := before + [last];
      FlatLast(before, last);
    }
  }

  /** The lines of a text, paragraph by paragraph, when words may be broken. */
  lemma BrokenTextEndsRightly(r: Ruler, text: string) returns (parts: seq<seq<string>>)
    requires r.Valid()
    ensures |parts| == |Paragraphs(text)|
    ensures forall i :: 0 <= i < |parts| ==> Shows(r, Words(r, Paragraphs(text)[i]), parts[i])
    ensures Wrapped(r, text, true).Some? && Wrapped(r, text, true).value == Flat(parts)
  {
    hide Shows, Words, PutParagraphs;
    parts := EveryLineEndsRightly(r, Paragraphs(text));
  }
}
